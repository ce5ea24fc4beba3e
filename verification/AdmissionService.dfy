/**
  The admission service as the program keeps it: one table per kind of state, keyed by
  target, and handle objects whose state, cancel fence and reaped flag change in place.
  Every method is proved to be the Gate step of the handle's or the given target's key
  and to leave all other keys alone.
 */
module AdmissionServices {
  import opened Common
  import opened Admission

  class AdmissionHandle {
    const targetKey: TargetKey
    const generation: int
    const admitEpoch: nat
    const op: AdmissionOp
    const recovery: bool
    ghost const id: nat
    var state: AdmissionState
    var cancelled: bool
    var reaped: bool

    constructor (k: TargetKey, generation: int, admitEpoch: nat, op: AdmissionOp, recovery: bool, ghost id: nat)
      ensures targetKey == k && this.id == id
      ensures Value() == Binding(generation, admitEpoch, op, recovery, Pending, false, false)
    {
      targetKey, this.generation, this.admitEpoch, this.op, this.recovery := k, generation, admitEpoch, op, recovery;
      this.id := id;
      state, cancelled, reaped := Pending, false, false;
    }

    function Value(): Binding
      reads this
    {
      Binding(generation, admitEpoch, op, recovery, state, cancelled, reaped)
    }
  }

  class SnapshotStore {
    var snapshots: map<TargetKey, TargetSnapshot>

    constructor ()
      ensures snapshots == map[]
    {
      snapshots := map[];
    }

    method Put(k: TargetKey, s: TargetSnapshot) returns (r: Result<(), Refusal>)
      modifies this
      ensures r == if k in old(snapshots) && s.generation < old(snapshots)[k].generation
                   then Err(SnapshotGenerationRegression) else Ok(())
      ensures snapshots == if r.Ok? then old(snapshots)[k := s] else old(snapshots)
    {
      if k in snapshots && s.generation < snapshots[k].generation {
        return Err(SnapshotGenerationRegression);
      }
      snapshots := snapshots[k := s];
      return Ok(());
    }
  }

  function Outcome<T>(r: Result<T, Refusal>): Result<(), Refusal> {
    if r.Ok? then Ok(()) else Err(r.error)
  }

  class AdmissionService {
    const store: SnapshotStore
    var bindings: map<TargetKey, seq<AdmissionHandle>>
    var closedAt: map<TargetKey, int>
    var recoveryRequired: map<TargetKey, int>
    var execEpoch: map<TargetKey, nat>
    ghost var issued: map<TargetKey, seq<AdmissionHandle>>
    ghost var handles: set<AdmissionHandle>

    function BindingsOf(k: TargetKey): seq<AdmissionHandle>
      reads this
    {
      if k in bindings then bindings[k] else []
    }

    function EpochOf(k: TargetKey): nat
      reads this
    {
      if k in execEpoch then execEpoch[k] else 0
    }

    ghost function IssuedOf(k: TargetKey): seq<AdmissionHandle>
      reads this
    {
      if k in issued then issued[k] else []
    }

    ghost function Values(s: seq<AdmissionHandle>): (v: seq<Binding>)
      reads s
      ensures |v| == |s| && forall i | 0 <= i < |s| :: v[i] == s[i].Value()
    {
      if s == [] then [] else Values(s[..|s| - 1]) + [s[|s| - 1].Value()]
    }

    ghost predicate Linked()
      reads this, handles
    {
      && (forall k, i | k in issued && 0 <= i < |issued[k]| ::
            issued[k][i] in handles && issued[k][i].targetKey == k && issued[k][i].id == i)
      && (forall h | h in handles :: h.targetKey in issued && h.id < |issued[h.targetKey]| && issued[h.targetKey][h.id] == h)
      && (forall k | k in bindings :: Distinct(bindings[k]) && forall h | h in bindings[k] :: h in handles && h.targetKey == k)
    }

    ghost function View(k: TargetKey): Gate
      reads this, store, handles
      requires Linked()
    {
      Gate(
        Lookup(store.snapshots, k),
        Lookup(closedAt, k),
        Lookup(recoveryRequired, k),
        EpochOf(k),
        Values(IssuedOf(k)),
        LiveOf(k))
    }

    /** The numbers of the handles on key k's binding list. */
    ghost function LiveOf(k: TargetKey): set<nat>
      reads this, handles
    {
      set h | h in handles && h in BindingsOf(k) :: h.id
    }

    ghost predicate Valid()
      reads this, store, handles
    {
      Linked() && forall k :: Inv(View(k))
    }

    constructor ()
      ensures Valid() && fresh(store) && handles == {}
      ensures forall k :: View(k) == Unpublished
    {
      store := new SnapshotStore();
      bindings, closedAt, recoveryRequired, execEpoch := map[], map[], map[], map[];
      issued, handles := map[], {};
    }

    // ----- reading

    method CurrentExecutionEpoch(k: TargetKey) returns (epoch: nat)
      requires Valid()
      ensures epoch == View(k).epoch
    {
      return EpochOf(k);
    }

    method BindSnapshot(k: TargetKey, generation: int, recoveryMode: bool) returns (r: Result<TargetSnapshot, Refusal>)
      requires Valid()
      ensures r == View(k).BindSnapshot(generation, recoveryMode)
    {
      if k in closedAt {
        return Err(AdmissionClosed);
      }
      if !recoveryMode && k in recoveryRequired {
        if k !in store.snapshots || recoveryRequired[k] >= store.snapshots[k].generation {
          return Err(RecoveryRequired);
        }
      }
      if k !in store.snapshots || generation != store.snapshots[k].generation {
        return Err(StaleHandle);
      }
      return Ok(store.snapshots[k]);
    }

    // ----- handle steps

    method Promote(h: AdmissionHandle) returns (r: Result<(), Refusal>)
      requires Valid() && h in handles
      modifies h
      ensures Valid()
      ensures r == Outcome(old(View(h.targetKey)).Promote(h.id))
      ensures View(h.targetKey) == Step(old(View(h.targetKey)), Event.Promote(h.id))
      ensures forall k | k != h.targetKey :: View(k) == old(View(k))
    {
      hide Valid, Linked, View, Inv;
      Reads(h);
      if h !in BindingsOf(h.targetKey) || !h.state.Pending? {
        r := Err(HandleNotPending);
      } else if h.cancelled {
        r := Err(AdmissionCancelled);
      } else {
        h.state := Promoted;
        Settled(h.targetKey, h.id, Event.Promote(h.id));
        r := Ok(());
      }
    }

    method ConfirmReaped(h: AdmissionHandle) returns (r: Result<(), Refusal>)
      requires Valid() && h in handles
      modifies h
      ensures Valid()
      ensures r == Outcome(old(View(h.targetKey)).ConfirmReaped(h.id))
      ensures View(h.targetKey) == Step(old(View(h.targetKey)), Event.ConfirmReaped(h.id))
      ensures forall k | k != h.targetKey :: View(k) == old(View(k))
    {
      hide Valid, Linked, View, Inv;
      Reads(h);
      if h.targetKey !in closedAt || !h.cancelled {
        r := Err(ReapNotPermitted);
      } else if h !in BindingsOf(h.targetKey) {
        r := Err(HandleAlreadyDisposed);
      } else {
        h.reaped := true;
        Settled(h.targetKey, h.id, Event.ConfirmReaped(h.id));
        r := Ok(());
      }
    }

    /** Terminal disposal, for whichever event `e` asks for it once its own guards have passed. */
    method Dispose(h: AdmissionHandle, terminal: AdmissionState, ghost e: Event) returns (r: Result<(), Refusal>)
      requires Valid() && h in handles
      requires Step(View(h.targetKey), e) == Settle(View(h.targetKey), View(h.targetKey).Dispose(h.id, terminal))
      modifies h, `bindings
      ensures Valid()
      ensures r == Outcome(old(View(h.targetKey)).Dispose(h.id, terminal))
      ensures View(h.targetKey) == Step(old(View(h.targetKey)), e)
      ensures forall k | k != h.targetKey :: View(k) == old(View(k))
    {
      hide Inv, Step, Valid, Linked, View;
      Reads(h);
      if h !in BindingsOf(h.targetKey) || h.state.Terminal() {
        r := Err(HandleAlreadyDisposed);
      } else {
        h.state := terminal;
        bindings := bindings[h.targetKey := Without(bindings[h.targetKey], h)];
        Removed(h.targetKey, h.id, e);
        r := Ok(());
      }
    }

    method Complete(h: AdmissionHandle) returns (r: Result<(), Refusal>)
      requires Valid() && h in handles
      modifies h, `bindings
      ensures Valid()
      ensures r == Outcome(old(View(h.targetKey)).Complete(h.id))
      ensures View(h.targetKey) == Step(old(View(h.targetKey)), Event.Complete(h.id))
      ensures forall k | k != h.targetKey :: View(k) == old(View(k))
    {
      hide Valid, Linked, View, Inv;
      Reads(h);
      if h.cancelled {
        r := Err(AdmissionCancelled);
      } else if h.op.SshTier? && h.admitEpoch != EpochOf(h.targetKey) {
        r := Err(ExecutionStateChanged);
      } else if h.state.Pending? && h.op.TransportOpen? {
        r := Err(InvalidTerminalTransition);
      } else {
        r := Dispose(h, Completed, Event.Complete(h.id));
      }
    }

    method Rollback(h: AdmissionHandle) returns (r: Result<(), Refusal>)
      requires Valid() && h in handles
      modifies h, `bindings
      ensures Valid()
      ensures r == Outcome(old(View(h.targetKey)).Rollback(h.id))
      ensures View(h.targetKey) == Step(old(View(h.targetKey)), Event.Rollback(h.id))
      ensures forall k | k != h.targetKey :: View(k) == old(View(k))
    {
      hide Valid, Linked, View, Inv;
      Reads(h);
      if h.state.Promoted? && h.targetKey in closedAt && !h.reaped {
        r := Err(ReaperConfirmationRequired);
      } else {
        r := Dispose(h, RolledBack, Event.Rollback(h.id));
      }
    }

    method Abandon(h: AdmissionHandle) returns (r: Result<(), Refusal>)
      requires Valid() && h in handles
      modifies h, `bindings
      ensures Valid()
      ensures r == Outcome(old(View(h.targetKey)).Abandon(h.id))
      ensures View(h.targetKey) == Step(old(View(h.targetKey)), Event.Abandon(h.id))
      ensures forall k | k != h.targetKey :: View(k) == old(View(k))
    {
      hide Valid, Linked, View, Inv;
      Reads(h);
      if h.targetKey !in closedAt || !h.cancelled {
        r := Err(AbandonNotPermitted);
      } else if !h.reaped {
        r := Err(ReaperConfirmationRequired);
      } else {
        r := Dispose(h, Abandoned, Event.Abandon(h.id));
      }
    }

    // ----- admission

    method ValidateOpen(k: TargetKey, request: OpenRequest, recoveryMode: bool) returns (r: Result<TargetSnapshot, Refusal>)
      requires Valid()
      ensures r == View(k).ValidateOpen(request, recoveryMode)
    {
      if !request.facts.keyMatches {
        return Err(TargetMismatch);
      }
      var s :- BindSnapshot(k, request.generation, recoveryMode);
      if !request.facts.refMatches {
        return Err(ForeignRef);
      }
      if !request.facts.capsSuffice {
        return Err(InsufficientCaps);
      }
      return Gate.CheckSharedFacts(s, request.facts);
    }

    /** A new pending handle, for whichever event `e` admits it once its own checks have passed. */
    method Register(k: TargetKey, op: AdmissionOp, s: TargetSnapshot, recovery: bool, ghost e: Event)
      returns (h: AdmissionHandle)
      requires Valid()
      requires Step(View(k), e) == View(k).Register(op, s, recovery)
      modifies `bindings, `issued, `handles
      ensures Valid() && fresh(h) && handles == old(handles) + {h}
      ensures h.targetKey == k && h.id == |old(View(k)).issued|
      ensures View(k) == Step(old(View(k)), e)
      ensures forall other | other != k :: View(other) == old(View(other))
    {
      hide Inv, Step, Valid, Linked, View, Values;
      Counted(k);
      h := new AdmissionHandle(k, s.generation, EpochOf(k), op, recovery, |IssuedOf(k)|);
      bindings := bindings[k := BindingsOf(k) + [h]];
      issued := issued[k := IssuedOf(k) + [h]];
      handles := handles + {h};
      Added(k, e);
    }

    method Admit(k: TargetKey, request: OpenRequest) returns (r: Result<AdmissionHandle, Refusal>)
      requires Valid()
      modifies `bindings, `issued, `handles
      ensures Valid()
      ensures Outcome(r) == Outcome(old(View(k)).Admit(request))
      ensures View(k) == Step(old(View(k)), Event.Admit(request))
      ensures forall other | other != k :: View(other) == old(View(other))
      ensures r.Ok? ==> Granted(r.value, k)
      ensures r.Err? ==> unchanged(this)
    {
      hide Valid, Linked, Inv;
      var checked := ValidateOpen(k, request, false);
      if checked.Err? {
        r := Err(checked.error);
      } else if !checked.value.state.Ready? {
        r := Err(TargetNotReady);
      } else {
        var h := Register(k, TransportOpen, checked.value, false, Event.Admit(request));
        r := Ok(h);
      }
    }

    method AdmitRecovery(k: TargetKey, request: OpenRequest) returns (r: Result<AdmissionHandle, Refusal>)
      requires Valid()
      modifies `bindings, `issued, `handles
      ensures Valid()
      ensures Outcome(r) == Outcome(old(View(k)).AdmitRecovery(request))
      ensures View(k) == Step(old(View(k)), Event.AdmitRecovery(request))
      ensures forall other | other != k :: View(other) == old(View(other))
      ensures r.Ok? ==> Granted(r.value, k)
      ensures r.Err? ==> unchanged(this)
    {
      hide Valid, Linked, Inv;
      var checked := ValidateOpen(k, request, true);
      if checked.Err? {
        r := Err(checked.error);
      } else if k !in recoveryRequired || recoveryRequired[k] != checked.value.generation {
        r := Err(NotRecoveryRequired);
      } else {
        var h := Register(k, TransportOpen, checked.value, true, Event.AdmitRecovery(request));
        r := Ok(h);
      }
    }

    method RequireExecutingProof(k: TargetKey, s: TargetSnapshot, proof: Option<ExecutionProof>)
      returns (r: Result<(), Refusal>)
      requires Valid()
      ensures r == View(k).RequireExecutingProof(s, proof)
    {
      if proof.None? || proof.value.state.None? || proof.value.state.value.Unknown? {
        return Err(ExecutionStateUnknown);
      }
      if proof.value.generation != s.generation {
        return Err(StaleHandle);
      }
      if proof.value.epoch != EpochOf(k) {
        return Err(ExecutionStateUnknown);
      }
      if proof.value.state.value.Halted? {
        return Err(TargetHalted);
      }
      return Ok(());
    }

    method ValidateSsh(k: TargetKey, request: SshRequest) returns (r: Result<TargetSnapshot, Refusal>)
      requires Valid()
      ensures r == View(k).ValidateSsh(request)
    {
      var bound :- BindSnapshot(k, request.generation, false);
      var s :- Gate.CheckSharedFacts(bound, request.facts);
      if !s.state.Ready? {
        var _ :- RequireExecutingProof(k, s, request.proof);
      }
      return Ok(s);
    }

    method AdmitSsh(k: TargetKey, request: SshRequest) returns (r: Result<AdmissionHandle, Refusal>)
      requires Valid()
      modifies `bindings, `issued, `handles
      ensures Valid()
      ensures Outcome(r) == Outcome(old(View(k)).AdmitSsh(request))
      ensures View(k) == Step(old(View(k)), Event.AdmitSsh(request))
      ensures forall other | other != k :: View(other) == old(View(other))
      ensures r.Ok? ==> Granted(r.value, k)
      ensures r.Err? ==> unchanged(this)
    {
      hide Valid, Linked, Inv;
      var checked := ValidateSsh(k, request);
      if checked.Err? {
        r := Err(checked.error);
      } else {
        var h := Register(k, SshTier, checked.value, false, Event.AdmitSsh(request));
        r := Ok(h);
      }
    }

    // ----- the tables of one key

    method PublishSnapshot(k: TargetKey, s: TargetSnapshot) returns (r: Result<(), Refusal>)
      requires Valid()
      modifies store
      ensures Valid()
      ensures r == Outcome(old(View(k)).Publish(s))
      ensures View(k) == Step(old(View(k)), Event.Publish(s))
      ensures forall other | other != k :: View(other) == old(View(other))
    {
      r := store.Put(k, s);
      TablesMoved(k, Event.Publish(s));
    }

    method Reopen(k: TargetKey) returns (r: Result<(), Refusal>)
      requires Valid()
      modifies `closedAt
      ensures Valid()
      ensures r == Outcome(old(View(k)).Reopen())
      ensures View(k) == Step(old(View(k)), Event.Reopen)
      ensures forall other | other != k :: View(other) == old(View(other))
    {
      Outstanding(k);
      hide Inv;
      if k !in closedAt {
        r := Ok(());
      } else if k !in store.snapshots || store.snapshots[k].generation <= closedAt[k] {
        r := Err(GenerationNotAdvanced);
      } else if BindingsOf(k) != [] {
        r := Err(BindingsOutstanding);
      } else {
        closedAt := closedAt - {k};
        TablesMoved(k, Event.Reopen);
        r := Ok(());
      }
    }

    method MarkRecoveryRequired(k: TargetKey, generation: int)
      requires Valid()
      modifies `recoveryRequired
      ensures Valid()
      ensures View(k) == Step(old(View(k)), Event.MarkRecovery(generation))
      ensures forall other | other != k :: View(other) == old(View(other))
    {
      hide Inv;
      if k !in recoveryRequired || generation >= recoveryRequired[k] {
        recoveryRequired := recoveryRequired[k := generation];
        TablesMoved(k, Event.MarkRecovery(generation));
      }
    }

    method ClearRecoveryRequired(k: TargetKey, expected: int)
      requires Valid()
      modifies `recoveryRequired
      ensures Valid()
      ensures View(k) == Step(old(View(k)), Event.ClearRecovery(expected))
      ensures forall other | other != k :: View(other) == old(View(other))
    {
      hide Inv;
      if k in recoveryRequired && recoveryRequired[k] == expected {
        recoveryRequired := recoveryRequired - {k};
        TablesMoved(k, Event.ClearRecovery(expected));
      }
    }

    method NoteExecutionTransition(k: TargetKey, generation: int) returns (epoch: nat)
      requires Valid()
      modifies `execEpoch
      ensures Valid()
      ensures epoch == View(k).epoch
      ensures View(k) == Step(old(View(k)), Event.NoteTransition(generation))
      ensures forall other | other != k :: View(other) == old(View(other))
    {
      hide Inv;
      if k in store.snapshots && store.snapshots[k].generation == generation {
        execEpoch := execEpoch[k := EpochOf(k) + 1];
        TablesMoved(k, Event.NoteTransition(generation));
      }
      epoch := EpochOf(k);
    }

    // ----- setting cancel fences

    static method SetFences(hs: seq<AdmissionHandle>)
      modifies hs
      ensures forall h | h in hs :: h.Value() == old(h.Value()).(cancelled := true)
    {
      for i := 0 to |hs|
        invariant forall h | h in hs :: h.Value() == old(h.Value()).(cancelled := h in hs[..i] || old(h.cancelled))
      {
        hs[i].cancelled := true;
      }
    }

    method CloseAdmission(k: TargetKey, generation: int) returns (cancelled: seq<AdmissionHandle>)
      requires Valid()
      modifies `closedAt, BindingsOf(k)
      ensures Valid()
      ensures cancelled == if old(View(k)).StaleClose(generation) then [] else old(BindingsOf(k))
      ensures View(k) == Step(old(View(k)), Event.Close(generation))
      ensures forall other | other != k :: View(other) == old(View(other))
    {
      Linking(k);
      CloseStep(View(k), generation);
      hide Inv, Step;
      if k !in closedAt && k in store.snapshots && store.snapshots[k].generation > generation {
        cancelled := [];
      } else {
        if k !in closedAt {
          closedAt := closedAt[k := generation];
        }
        cancelled := BindingsOf(k);
        SetFences(cancelled);
        Signalled(k, cancelled, Event.Close(generation));
      }
    }

    /** The live ssh-tier handles of one incarnation that were admitted no later than a halt. */
    method SpanningHandles(k: TargetKey, generation: int, haltEpoch: nat) returns (hs: seq<AdmissionHandle>)
      ensures forall h :: h in hs <==> h in BindingsOf(k) && InFlight(h, generation, haltEpoch)
      ensures forall i | 0 <= i < |hs| :: hs[i] in BindingsOf(k)
    {
      hs := [];
      var bound := BindingsOf(k);
      for i := 0 to |bound|
        invariant forall h :: h in hs <==> h in bound[..i] && InFlight(h, generation, haltEpoch)
        invariant forall j | 0 <= j < |hs| :: hs[j] in bound
      {
        assert bound[..i + 1] == bound[..i] + [bound[i]];
        if bound[i].op.SshTier? && bound[i].generation == generation && bound[i].admitEpoch <= haltEpoch {
          hs := hs + [bound[i]];
        }
      }
      assert bound[..|bound|] == bound;
    }

    method CancelSshTier(k: TargetKey, generation: int, haltEpoch: nat) returns (cancelled: seq<AdmissionHandle>)
      requires Valid()
      modifies BindingsOf(k)
      ensures Valid()
      ensures forall h :: h in cancelled <==>
                h in BindingsOf(k) && InFlight(h, generation, haltEpoch) && View(k).GenerationCurrent(generation)
      ensures View(k) == Step(old(View(k)), Event.CancelSsh(generation, haltEpoch))
      ensures forall other | other != k :: View(other) == old(View(other))
    {
      hide Gate.Cancel, Gate.CancelSsh, Gate.SshInFlight, Gate.GenerationCurrent, Linked, View, Valid, InFlight, Inv, Step;
      Reading(k, generation);
      if k in store.snapshots && store.snapshots[k].generation == generation {
        cancelled := SpanningHandles(k, generation, haltEpoch);
        CancelSshStep(k, generation, haltEpoch, cancelled);
        SetFences(cancelled);
        Signalled(k, cancelled, Event.CancelSsh(generation, haltEpoch));
      } else {
        cancelled := [];
        CancelSshStep(k, generation, haltEpoch, cancelled);
      }
      Reading(k, generation);
    }

    lemma Reading(k: TargetKey, generation: int)
      requires Valid()
      ensures View(k).GenerationCurrent(generation) <==> k in store.snapshots && store.snapshots[k].generation == generation
      ensures View(k).(closedAt := Lookup(closedAt, k)) == View(k)
    {
    }

    lemma CancelSshStep(k: TargetKey, generation: int, haltEpoch: nat, hs: seq<AdmissionHandle>)
      requires Valid()
      requires View(k).GenerationCurrent(generation) ==>
                 forall h :: h in hs <==> h in BindingsOf(k) && InFlight(h, generation, haltEpoch)
      ensures Step(View(k), Event.CancelSsh(generation, haltEpoch)) ==
              if View(k).GenerationCurrent(generation) then View(k).Cancel(set h | h in hs :: h.id) else View(k)
      ensures View(k).GenerationCurrent(generation) ==> forall h | h in hs :: h in handles && h.targetKey == k
    {
      if View(k).GenerationCurrent(generation) {
        SpanningIds(k, generation, haltEpoch, hs);
      }
    }

    lemma SpanningIds(k: TargetKey, generation: int, haltEpoch: nat, hs: seq<AdmissionHandle>)
      requires Linked() && forall h :: h in hs <==> h in BindingsOf(k) && InFlight(h, generation, haltEpoch)
      ensures (set h | h in hs :: h.id) == View(k).SshInFlight(generation, haltEpoch)
      ensures forall h | h in hs :: h in handles && h.targetKey == k
    {
      forall h | h in BindingsOf(k)
        ensures View(k).Known(h.id) && View(k).issued[h.id] == h.Value()
      {
        assert issued[k][h.id] == h;
      }
    }

    predicate InFlight(h: AdmissionHandle, generation: int, haltEpoch: nat) {
      h.op.SshTier? && h.generation == generation && h.admitEpoch <= haltEpoch
    }

    // ----- from fields to gates

    /** A handle this service has just issued for key k. */
    twostate predicate Granted(new h: AdmissionHandle, k: TargetKey)
      reads this
    {
      fresh(h) && handles == old(handles) + {h} && h.targetKey == k && h.id == |old(IssuedOf(k))|
    }

    /** What the fields of a handle and its place in the binding list are to the gate. */
    lemma Reads(h: AdmissionHandle)
      requires Valid() && h in handles
      ensures var g := View(h.targetKey);
              && h.id < |IssuedOf(h.targetKey)| && IssuedOf(h.targetKey)[h.id] == h
              && g.Known(h.id) && g.issued[h.id] == h.Value()
              && (h.id in g.live <==> h in BindingsOf(h.targetKey))
              && g.closedAt == Lookup(closedAt, h.targetKey) && g.epoch == EpochOf(h.targetKey)
    {
    }

    /** The binding list holds exactly the handle objects whose numbers are live. */
    lemma Linking(k: TargetKey)
      requires Linked()
      ensures Distinct(BindingsOf(k))
      ensures forall h | h in handles && h.targetKey == k :: h.id in View(k).live <==> h in BindingsOf(k)
      ensures forall h | h in BindingsOf(k) :: h in handles && h.targetKey == k
    {
    }

    lemma Outstanding(k: TargetKey)
      requires Linked()
      ensures BindingsOf(k) == [] <==> View(k).live == {}
    {
      if BindingsOf(k) != [] {
        assert BindingsOf(k)[0].id in View(k).live;
      }
    }

    lemma CloseStep(g: Gate, generation: int)
      ensures Step(g, Event.Close(generation)) == g.Close(generation)
    {
    }

    /** Key k's own gate has moved by e, and nothing was assigned that another key's gate depends on. */
    twostate lemma Stepped(new k: TargetKey, new e: Event)
      requires old(Valid()) && Linked() && old(handles) <= handles
      requires View(k) == Step(old(View(k)), e)
      requires forall other | other != k ::
                 && old(BindingsOf(other)) == BindingsOf(other) && old(IssuedOf(other)) == IssuedOf(other)
                 && old(EpochOf(other)) == EpochOf(other) && old(Lookup(closedAt, other)) == Lookup(closedAt, other)
                 && old(Lookup(recoveryRequired, other)) == Lookup(recoveryRequired, other)
                 && old(Lookup(store.snapshots, other)) == Lookup(store.snapshots, other)
      requires forall o | o in old(handles) && o.targetKey != k :: o.Value() == old(o.Value())
      ensures Valid()
      ensures forall other | other != k :: View(other) == old(View(other))
    {
      hide Inv, Step;
      StepKeepsInv(old(View(k)), e);
      forall other | other != k
        ensures View(other) == old(View(other))
      {
        assert View(other).issued == old(View(other)).issued;
        assert View(other).live == old(View(other)).live;
      }
    }

    /** The same when no handle was touched. */
    twostate lemma TablesMoved(new k: TargetKey, new e: Event)
      requires old(Valid()) && unchanged(`bindings) && unchanged(`issued) && unchanged(`handles)
      requires forall o | o in handles :: unchanged(o)
      requires Linked() ==> View(k).(issued := old(View(k)).issued, live := old(View(k)).live) == Step(old(View(k)), e)
      requires forall other | other != k ::
                 && old(EpochOf(other)) == EpochOf(other) && old(Lookup(closedAt, other)) == Lookup(closedAt, other)
                 && old(Lookup(recoveryRequired, other)) == Lookup(recoveryRequired, other)
                 && old(Lookup(store.snapshots, other)) == Lookup(store.snapshots, other)
      ensures Valid() && View(k) == Step(old(View(k)), e)
      ensures forall other | other != k :: View(other) == old(View(other))
    {
      hide Inv, Step;
      assert View(k).issued == old(View(k)).issued;
      assert View(k).live == old(View(k)).live;
      Stepped(k, e);
    }

    lemma Counted(k: TargetKey)
      requires Valid()
      ensures Linked() && |View(k).issued| == |IssuedOf(k)| && View(k).epoch == EpochOf(k)
    {
    }

    /** After handle number `id` of key k was given a terminal state and taken off its binding list. */
    twostate lemma Removed(new k: TargetKey, id: nat, new e: Event)
      requires old(Valid()) && id < |old(IssuedOf(k))| && unchanged(store)
      requires unchanged(`issued) && unchanged(`handles) && unchanged(`closedAt) && unchanged(`recoveryRequired)
               && unchanged(`execEpoch)
      requires IssuedOf(k)[id] in old(BindingsOf(k))
      requires bindings == old(bindings)[k := Without(old(BindingsOf(k)), IssuedOf(k)[id])]
      requires forall o | o in handles && o != IssuedOf(k)[id] :: unchanged(o)
      requires var g := old(View(k));
               Step(g, e) == g.(issued := g.issued[id := IssuedOf(k)[id].Value()], live := g.live - {id})
      ensures Valid() && View(k) == Step(old(View(k)), e)
      ensures forall other | other != k :: View(other) == old(View(other))
    {
      hide Inv, Step, Linked, View, Values, LiveOf;
      RemovedLinks(k, id);
      RemovedView(k, id);
      Stepped(k, e);
    }

    twostate lemma RemovedLinks(new k: TargetKey, id: nat)
      requires old(Valid()) && id < |old(IssuedOf(k))|
      requires unchanged(`issued) && unchanged(`handles) && IssuedOf(k)[id] in old(BindingsOf(k))
      requires bindings == old(bindings)[k := Without(old(BindingsOf(k)), IssuedOf(k)[id])]
      ensures Linked() && old(Linked()) && IssuedOf(k)[id].targetKey == k
    {
      hide Inv, Step, View;
      WithoutRemoves(old(BindingsOf(k)), IssuedOf(k)[id]);
    }

    twostate lemma RemovedView(new k: TargetKey, id: nat)
      requires old(Linked()) && Linked() && id < |old(IssuedOf(k))| && unchanged(store)
      requires unchanged(`issued) && unchanged(`handles) && unchanged(`closedAt) && unchanged(`recoveryRequired)
               && unchanged(`execEpoch)
      requires IssuedOf(k)[id] in old(BindingsOf(k))
      requires bindings == old(bindings)[k := Without(old(BindingsOf(k)), IssuedOf(k)[id])]
      requires forall o | o in handles && o != IssuedOf(k)[id] :: unchanged(o)
      ensures View(k) == old(View(k)).(issued := old(View(k)).issued[id := IssuedOf(k)[id].Value()],
                                       live := old(View(k)).live - {id})
    {
      hide Values, LiveOf, Linked;
      RemovedValues(k, id);
      RemovedLive(k, id);
    }

    twostate lemma RemovedValues(new k: TargetKey, id: nat)
      requires Linked() && id < |old(IssuedOf(k))| && unchanged(`issued) && unchanged(`handles)
      requires forall o | o in handles && o != IssuedOf(k)[id] :: unchanged(o)
      ensures Values(IssuedOf(k)) == old(Values(IssuedOf(k)))[id := IssuedOf(k)[id].Value()]
    {
      hide Linked;
      NumberedIssued(k);
      var s := IssuedOf(k);
      assert old(Values(IssuedOf(k))) == old(Values(s));
      forall i | 0 <= i < |s| && i != id
        ensures s[i].Value() == old(s[i].Value())
      {
        assert s[i].id != s[id].id;
      }
    }

    /** The handles issued for key k are numbered in order. */
    lemma NumberedIssued(k: TargetKey)
      requires Linked()
      ensures forall i | 0 <= i < |IssuedOf(k)| :: IssuedOf(k)[i] in handles && IssuedOf(k)[i].id == i
    {
    }

    twostate lemma RemovedLive(new k: TargetKey, id: nat)
      requires old(Linked()) && id < |old(IssuedOf(k))| && unchanged(`issued) && unchanged(`handles)
      requires IssuedOf(k)[id] in old(BindingsOf(k))
      requires bindings == old(bindings)[k := Without(old(BindingsOf(k)), IssuedOf(k)[id])]
      ensures LiveOf(k) == old(LiveOf(k)) - {id}
    {
      WithoutRemoves(old(BindingsOf(k)), IssuedOf(k)[id]);
      forall h | h in old(BindingsOf(k)) && h.id == id
        ensures h == IssuedOf(k)[id]
      {
        assert h in handles && issued[k][h.id] == h;
      }
    }

    twostate lemma AddedLinks(new k: TargetKey)
      requires old(Linked())
      requires var n := |old(IssuedOf(k))|;
               && k in issued && |issued[k]| == n + 1
               && var h := issued[k][n];
                  && fresh(h) && h.targetKey == k && h.id == n
                  && issued == old(issued)[k := old(IssuedOf(k)) + [h]]
                  && bindings == old(bindings)[k := old(BindingsOf(k)) + [h]]
                  && handles == old(handles) + {h}
      ensures Linked()
    {
    }

    twostate lemma AddedView(new k: TargetKey)
      requires old(Linked()) && Linked() && unchanged(store)
      requires unchanged(`closedAt) && unchanged(`recoveryRequired) && unchanged(`execEpoch)
      requires var n := |old(IssuedOf(k))|;
               && k in issued && |issued[k]| == n + 1
               && var h := issued[k][n];
                  && fresh(h) && h.id == n
                  && issued == old(issued)[k := old(IssuedOf(k)) + [h]]
                  && bindings == old(bindings)[k := old(BindingsOf(k)) + [h]]
                  && handles == old(handles) + {h}
      requires forall o | o in old(handles) :: unchanged(o)
      ensures var n := |old(IssuedOf(k))|;
              View(k) == old(View(k)).(issued := old(View(k)).issued + [issued[k][n].Value()], live := old(View(k)).live + {n})
    {
      hide Values, LiveOf, Linked;
      AddedValues(k);
      AddedLive(k, issued[k][|old(IssuedOf(k))|]);
    }

    twostate lemma AddedValues(new k: TargetKey)
      requires old(Linked())
      requires var n := |old(IssuedOf(k))|;
               && k in issued && |issued[k]| == n + 1 && issued == old(issued)[k := old(IssuedOf(k)) + [issued[k][n]]]
      requires forall o | o in old(handles) :: unchanged(o)
      ensures var n := |old(IssuedOf(k))|;
              Values(IssuedOf(k)) == old(Values(IssuedOf(k))) + [issued[k][n].Value()]
    {
      var n := |old(IssuedOf(k))|;
      forall i | 0 <= i < n
        ensures IssuedOf(k)[i].Value() == old(IssuedOf(k)[i].Value())
      {
        assert old(issued)[k][i] in old(handles);
      }
    }

    twostate lemma AddedLive(new k: TargetKey, new h: AdmissionHandle)
      requires old(Linked())
      requires fresh(h) && bindings == old(bindings)[k := old(BindingsOf(k)) + [h]] && handles == old(handles) + {h}
      ensures LiveOf(k) == old(LiveOf(k)) + {h.id}
    {
      assert h in handles && h in BindingsOf(k);
      assert forall o :: o in BindingsOf(k) <==> o in old(BindingsOf(k)) || o == h;
    }

    /** After a new handle object was appended to the lists of key k. */
    twostate lemma Added(new k: TargetKey, new e: Event)
      requires old(Valid()) && unchanged(store)
      requires unchanged(`closedAt) && unchanged(`recoveryRequired) && unchanged(`execEpoch)
      requires var n := |old(IssuedOf(k))|;
               && k in issued && |issued[k]| == n + 1
               && var h := issued[k][n];
                  && fresh(h) && h.targetKey == k && h.id == n
                  && issued == old(issued)[k := old(IssuedOf(k)) + [h]]
                  && bindings == old(bindings)[k := old(BindingsOf(k)) + [h]]
                  && handles == old(handles) + {h}
                  && var g := old(View(k)); Step(g, e) == g.(issued := g.issued + [h.Value()], live := g.live + {n})
      requires forall o | o in old(handles) :: unchanged(o)
      ensures Valid() && View(k) == Step(old(View(k)), e)
      ensures forall other | other != k :: View(other) == old(View(other))
    {
      hide Inv, Step, View, Linked;
      AddedLinks(k);
      AddedView(k);
      Stepped(k, e);
    }

    /** After the fences of some handles of key k were set, and possibly its closure recorded. */
    twostate lemma Signalled(new k: TargetKey, new cancelled: seq<AdmissionHandle>, new e: Event)
      requires old(Valid()) && unchanged(store)
      requires unchanged(`issued) && unchanged(`handles) && unchanged(`bindings) && unchanged(`recoveryRequired)
               && unchanged(`execEpoch)
      requires forall other | other != k :: old(Lookup(closedAt, other)) == Lookup(closedAt, other)
      requires forall o | o in handles ::
                 o.Value() == if o in cancelled then old(o.Value()).(cancelled := true) else old(o.Value())
      requires forall o | o in cancelled :: o in handles && o.targetKey == k
      requires var g := old(View(k)).(closedAt := Lookup(closedAt, k));
               Step(old(View(k)), e) == g.Cancel(set o | o in cancelled :: o.id)
      ensures Valid() && View(k) == Step(old(View(k)), e)
      ensures forall other | other != k :: View(other) == old(View(other))
    {
      hide Inv, Step, View;
      assert Linked();
      SignalledView(k, cancelled);
      Stepped(k, e);
    }

    twostate lemma SignalledView(new k: TargetKey, new cancelled: seq<AdmissionHandle>)
      requires old(Linked()) && Linked() && unchanged(store)
      requires unchanged(`issued) && unchanged(`handles) && unchanged(`bindings) && unchanged(`recoveryRequired)
               && unchanged(`execEpoch)
      requires forall o | o in handles ::
                 o.Value() == if o in cancelled then old(o.Value()).(cancelled := true) else old(o.Value())
      requires forall o | o in cancelled :: o in handles && o.targetKey == k
      ensures View(k) == old(View(k)).(closedAt := Lookup(closedAt, k)).Cancel(set o | o in cancelled :: o.id)
    {
      hide Values;
      SignalledValues(k, cancelled);
      var g := old(View(k)).(closedAt := Lookup(closedAt, k));
      CancelFence(g, set o | o in cancelled :: o.id, View(k).issued);
    }

    lemma CancelFence(g: Gate, ids: set<nat>, issued: seq<Binding>)
      requires |issued| == |g.issued|
      requires forall i | 0 <= i < |issued| :: issued[i] == if i in ids then g.issued[i].(cancelled := true) else g.issued[i]
      ensures g.Cancel(ids) == g.(issued := issued)
    {
      assert g.Cancel(ids).issued == issued;
    }

    twostate lemma SignalledValues(new k: TargetKey, new cancelled: seq<AdmissionHandle>)
      requires old(Linked()) && Linked() && unchanged(`issued) && unchanged(`handles)
      requires forall o | o in handles ::
                 o.Value() == if o in cancelled then old(o.Value()).(cancelled := true) else old(o.Value())
      requires forall o | o in cancelled :: o in handles && o.targetKey == k
      ensures var ids := set o | o in cancelled :: o.id; var before := old(Values(IssuedOf(k)));
              forall i | 0 <= i < |IssuedOf(k)| ::
                Values(IssuedOf(k))[i] == if i in ids then before[i].(cancelled := true) else before[i]
    {
      CancelledNumbers(k, cancelled);
    }

    lemma CancelledNumbers(k: TargetKey, cancelled: seq<AdmissionHandle>)
      requires Linked() && forall o | o in cancelled :: o in handles && o.targetKey == k
      ensures forall i | 0 <= i < |IssuedOf(k)| ::
                IssuedOf(k)[i] in handles && (i in (set o | o in cancelled :: o.id) <==> IssuedOf(k)[i] in cancelled)
    {
      forall i | 0 <= i < |IssuedOf(k)|
        ensures IssuedOf(k)[i] in handles && (i in (set o | o in cancelled :: o.id) <==> IssuedOf(k)[i] in cancelled)
      {
        assert IssuedOf(k)[i].id == i;
      }
    }

    /** After an assignment to the fields of handle number `id` of key k alone. */
    twostate lemma Settled(new k: TargetKey, id: nat, new e: Event)
      requires old(Valid()) && id < |old(IssuedOf(k))|
      requires unchanged(this) && unchanged(store)
      requires forall o | o in handles && o != IssuedOf(k)[id] :: unchanged(o)
      requires var g := old(View(k)); Step(g, e) == g.(issued := g.issued[id := IssuedOf(k)[id].Value()])
      ensures Valid() && View(k) == Step(old(View(k)), e)
      ensures forall other | other != k :: View(other) == old(View(other))
    {
      hide Inv, Step;
      assert View(k).issued == old(View(k)).issued[id := IssuedOf(k)[id].Value()];
      assert View(k).live == old(View(k)).live;
      Stepped(k, e);
    }
  }
}
