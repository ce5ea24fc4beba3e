/**
  The transport transaction over its real collaborators: open with its unwind, close,
  force_release and the lifecycle subscriber. Each method changes the joint state exactly as
  the function of the same name on ledgers says.
 */
module Transactions {
  import opened Common
  import opened Admission
  import opened AdmissionServices
  import opened Guards
  import opened Leases
  import opened Registries
  import opened Ledgers

  datatype Acquired = Acquired(
    guardToken: Option<GuardToken>,
    leaseToken: Option<nat>,
    session: Option<nat>,
    pid: Option<nat>,
    handle: Option<AdmissionHandle>)

  class SessionSubscriber {
    const session: TransportSession
    const state: Acquired
    var killed: bool

    constructor (session: TransportSession, state: Acquired)
      ensures this.session == session && this.state == state && killed == state.pid.None?
    {
      this.session, this.state, killed := session, state, state.pid.None?;
    }
  }

  /** The dispatcher's table of subscribers, by target and session. */
  class SubscriberTable {
    var table: map<Seat, SessionSubscriber>

    constructor ()
      ensures table == map[]
    {
      table := map[];
    }
  }

  ghost function IdOf(h: AdmissionHandle): HandleId {
    HandleId(h.targetKey, h.id)
  }

  ghost function StateOf(a: Acquired): OpenState {
    OpenState(a.guardToken, a.leaseToken, a.session, a.pid, if a.handle.Some? then Some(IdOf(a.handle.value)) else None)
  }

  ghost function SubscriptionOf(s: SessionSubscriber): Subscription
    reads s
  {
    Subscription(s.session, StateOf(s.state), s.killed)
  }

  class TransportTransaction {
    const admission: AdmissionService
    const registry: SessionRegistry
    const guard: InProcessStopCapableGuard
    const leases: ConsoleLeaseManager
    const dispatcher: SubscriberTable
    var tokens: map<nat, GuardToken>
    var handles: map<nat, AdmissionHandle>

    constructor (admission: AdmissionService, registry: SessionRegistry, guard: InProcessStopCapableGuard,
                 leases: ConsoleLeaseManager, dispatcher: SubscriberTable)
      requires admission.Valid() && registry.Valid() && guard.View().Consistent() && leases.Valid()
      requires dispatcher.table == map[]
      ensures Valid() && tokens == map[] && handles == map[]
    {
      this.admission, this.registry, this.guard, this.leases := admission, registry, guard, leases;
      this.dispatcher := dispatcher;
      tokens, handles := map[], map[];
    }

    ghost function Subscribers(): set<object>
      reads dispatcher
    {
      set seat | seat in dispatcher.table :: dispatcher.table[seat]
    }

    ghost predicate Valid()
      reads this, admission, admission.store, admission.handles, registry, guard, leases, leases.Repr(), dispatcher
    {
      && admission.Valid() && registry.Valid() && guard.View().Consistent() && leases.Valid()
      && (forall sid | sid in handles :: handles[sid] in admission.handles)
      && (forall seat | seat in dispatcher.table :: Registrable(seat, dispatcher.table[seat]))
    }

    /** A subscriber sits at its own session's seat. */
    ghost predicate Registrable(seat: Seat, s: SessionSubscriber)
      reads admission
    {
      && seat == Seat(s.session.targetKey, s.session.sid)
      && (s.state.handle.Some? ==> s.state.handle.value in admission.handles)
    }

    ghost function Gates(): imap<TargetKey, Gate>
      reads admission, admission.store, admission.handles
      requires admission.Valid()
    {
      imap k :: admission.View(k)
    }

    ghost function LeaseViews(): imap<TargetKey, LeaseView>
      reads leases, leases.Repr()
    {
      imap k :: leases.View(k)
    }

    ghost function HandleIds(): map<nat, HandleId>
      reads this
    {
      map sid | sid in handles :: IdOf(handles[sid])
    }

    ghost function Subscriptions(): map<Seat, Subscription>
      reads dispatcher, Subscribers()
    {
      map seat | seat in dispatcher.table :: SubscriptionOf(dispatcher.table[seat])
    }

    ghost function Books(): Ledger
      reads this, admission, admission.store, admission.handles, registry, guard, leases, leases.Repr(), dispatcher,
            Subscribers()
      requires Valid()
    {
      Ledger(Gates(), LeaseViews(), guard.View(), registry.Files(), tokens, HandleIds(), Subscriptions())
    }

    // ----- one authority at a time

    ghost function AdmissionRepr(): set<object>
      reads admission
    {
      admission.handles + {admission, admission.store}
    }

    /** Everything Books depends on but the named parts is as it was. */
    twostate predicate Unmoved(gates: bool, leased: bool, guarded: bool, filed: bool, tabled: bool, subscribed: bool)
      reads this, AdmissionRepr(), registry, guard, leases, leases.Repr(), dispatcher, Subscribers()
    {
      && (!gates ==> unchanged(admission) && unchanged(admission.store) && forall h | h in admission.handles :: unchanged(h))
      && (!leased ==> unchanged(leases) && forall k | k in leases.leases :: unchanged(leases.leases[k]))
      && (!guarded ==> unchanged(guard))
      && (!filed ==> unchanged(registry))
      && (!tabled ==> unchanged(this))
      && (!subscribed ==> unchanged(dispatcher) && forall seat | seat in dispatcher.table :: unchanged(dispatcher.table[seat]))
    }

    twostate lemma SameGates()
      requires old(admission.Valid()) && unchanged(admission) && unchanged(admission.store)
      requires forall h | h in admission.handles :: unchanged(h)
      ensures admission.Valid() && Gates() == old(Gates())
    {
      assert admission.Valid();
      hide AdmissionService.Valid, AdmissionService.View;
      assert Gates() == old(Gates());
    }

    twostate lemma SameLeases()
      requires old(leases.Valid()) && unchanged(leases) && forall k | k in leases.leases :: unchanged(leases.leases[k])
      ensures leases.Valid() && LeaseViews() == old(LeaseViews())
    {
    }

    twostate lemma SameSubscriptions()
      requires unchanged(dispatcher) && forall seat | seat in dispatcher.table :: unchanged(dispatcher.table[seat])
      ensures Subscriptions() == old(Subscriptions())
    {
    }

    /** What every authority but the moved one contributes to the books is as it was. */
    twostate lemma Unmoving(new gates: bool, new leased: bool, new guarded: bool, new filed: bool, new tabled: bool,
                            new subscribed: bool)
      requires old(Valid()) && Unmoved(gates, leased, guarded, filed, tabled, subscribed)
      ensures !gates ==> admission.Valid() && Gates() == old(Gates())
      ensures !leased ==> leases.Valid() && LeaseViews() == old(LeaseViews())
      ensures !guarded ==> guard.View() == old(guard.View())
      ensures !filed ==> registry.Files() == old(registry.Files()) && registry.Valid()
      ensures !tabled ==> HandleIds() == old(HandleIds())
      ensures !subscribed ==> Subscriptions() == old(Subscriptions())
    {
      hide AdmissionService.Valid, AdmissionService.View, ConsoleLeaseManager.Valid, Gates, LeaseViews, Subscriptions;
      if !gates {
        SameGates();
      }
      if !leased {
        SameLeases();
      }
      if !subscribed {
        SameSubscriptions();
      }
    }

    twostate lemma GuardMoved()
      requires old(Valid()) && Unmoved(false, false, true, false, false, false) && guard.View().Consistent()
      ensures Valid() && Books() == old(Books()).(guard := guard.View())
    {
      hide AdmissionService.Valid, AdmissionService.View, ConsoleLeaseManager.Valid, Gates, LeaseViews, Subscriptions, HandleIds;
      Unmoving(false, false, true, false, false, false);
    }

    twostate lemma LeasesMoved(new k: TargetKey)
      requires old(Valid()) && Unmoved(false, true, false, false, false, false) && leases.Valid()
      requires forall other | other != k :: leases.View(other) == old(leases.View(other))
      ensures Valid() && Books() == old(Books()).(leases := old(Books()).leases[k := leases.View(k)])
    {
      hide AdmissionService.Valid, AdmissionService.View, ConsoleLeaseManager.Valid, Gates, Subscriptions, HandleIds;
      Unmoving(false, true, false, false, false, false);
      assert LeaseViews() == old(LeaseViews())[k := leases.View(k)];
    }

    twostate lemma GatesMovedValid()
      requires old(Valid()) && Unmoved(true, false, false, false, false, false)
      requires admission.Valid() && old(admission.handles) <= admission.handles
      ensures Valid()
    {
      hide AdmissionService.Valid, AdmissionService.View;
      assert leases.Valid();
    }

    twostate lemma GatesMoved(new k: TargetKey, new e: Event)
      requires old(Valid()) && Unmoved(true, false, false, false, false, false)
      requires admission.Valid() && old(admission.handles) <= admission.handles
      requires admission.View(k) == Step(old(admission.View(k)), e)
      requires forall other | other != k :: admission.View(other) == old(admission.View(other))
      ensures Valid() && Books() == old(Books()).At(k, e)
    {
      hide AdmissionService.Linked, AdmissionService.View, Inv, ConsoleLeaseManager.Valid, Step, Registrable, LeaseViews,
           HandleIds, Subscriptions;
      GatesMovedValid();
      Unmoving(true, false, false, false, false, false);
      assert Gates() == old(Gates())[k := admission.View(k)];
    }

    twostate lemma FilesMoved()
      requires old(Valid()) && Unmoved(false, false, false, true, false, false) && registry.Valid()
      ensures Valid() && Books() == old(Books()).(files := registry.Files())
    {
      hide AdmissionService.Valid, AdmissionService.View, ConsoleLeaseManager.Valid, Gates, LeaseViews, Subscriptions, HandleIds;
      Unmoving(false, false, false, true, false, false);
    }

    /** The in-memory tables. */
    twostate lemma TablesMoved()
      requires old(Valid()) && Unmoved(false, false, false, false, true, false)
      requires forall sid | sid in handles :: handles[sid] in admission.handles
      ensures Valid() && Books() == old(Books()).(tokens := tokens, handles := HandleIds())
    {
      hide AdmissionService.Valid, AdmissionService.View, ConsoleLeaseManager.Valid, Gates, LeaseViews, Subscriptions, HandleIds;
      Unmoving(false, false, false, false, true, false);
    }

    twostate lemma HandleEntry(sid: nat, new h: Option<HandleId>)
      requires handles - {sid} == old(handles) - {sid} && (sid in handles <==> h.Some?)
      requires h.Some? ==> IdOf(handles[sid]) == h.value
      ensures HandleIds() == if h.Some? then old(HandleIds())[sid := h.value] else old(HandleIds()) - {sid}
    {
      assert forall other | other in handles && other != sid :: other in old(handles) - {sid};
      assert forall other | other in old(handles) && other != sid :: other in handles - {sid};
    }

    twostate lemma SubscriberMoved(new seat: Seat, new s: Option<SessionSubscriber>)
      requires old(Valid()) && Unmoved(false, false, false, false, false, true)
      requires dispatcher.table == if s.Some? then old(dispatcher.table)[seat := s.value] else old(dispatcher.table) - {seat}
      requires forall o | o in old(dispatcher.table) && o != seat :: unchanged(old(dispatcher.table)[o])
      requires s.Some? ==> Registrable(seat, s.value)
      ensures Valid()
      ensures Books() == old(Books()).(subscribers :=
                if s.Some? then old(Books()).subscribers[seat := SubscriptionOf(s.value)]
                else old(Books()).subscribers - {seat})
    {
      hide AdmissionService.Valid, AdmissionService.View, ConsoleLeaseManager.Valid, Gates, LeaseViews, HandleIds, Subscriptions;
      Unmoving(false, false, false, false, false, true);
      SubscriberEntry(seat, s);
    }

    twostate lemma SubscriberEntry(new seat: Seat, new s: Option<SessionSubscriber>)
      requires dispatcher.table == if s.Some? then old(dispatcher.table)[seat := s.value] else old(dispatcher.table) - {seat}
      requires forall o | o in old(dispatcher.table) && o != seat :: unchanged(old(dispatcher.table)[o])
      ensures Subscriptions() == if s.Some? then old(Subscriptions())[seat := SubscriptionOf(s.value)]
                                 else old(Subscriptions()) - {seat}
    {
    }

    method ReleaseLease(k: TargetKey, t: Option<nat>)
      requires Valid()
      modifies leases, leases.Repr()
      ensures Valid() && fresh(leases.Repr() - old(leases.Repr()))
      ensures Books() == old(Books()).ReleaseLease(k, t)
    {
      if t.Some? {
        var _ := leases.Release(k, t.value);
      }
      LeasesMoved(k);
      assert t.None? ==> old(Books()).leases[k := leases.View(k)] == old(Books()).leases;
    }

    method ReleaseGuard(k: TargetKey, t: Option<GuardToken>)
      requires Valid()
      modifies guard
      ensures Valid()
      ensures Books() == old(Books()).ReleaseGuard(k, t)
    {
      if t.Some? {
        var _ := guard.Release(k, t.value);
      }
      GuardMoved();
    }

    method DeleteRecord(k: TargetKey, sid: nat, ok: bool) returns (failed: bool)
      requires Valid()
      modifies registry
      ensures Valid()
      ensures Books() == old(Books()).DeleteOwn(k, sid, ok)
      ensures failed <==> old(Books()).Owns(k, sid) && !ok
    {
      failed := registry.DeleteRecord(k, Some(sid), ok);
      FilesMoved();
    }

    method WriteRecord(s: TransportSession, ok: bool)
      requires Valid()
      modifies registry
      ensures Valid()
      ensures Books() == if ok then old(Books()).WithRecord(s) else old(Books())
    {
      registry.WriteRecord(s, ok);
      FilesMoved();
    }

    method Unsubscribe(k: TargetKey, sid: nat)
      requires Valid()
      modifies dispatcher
      ensures Valid()
      ensures Books() == old(Books()).Unsubscribe(k, sid)
    {
      dispatcher.table := dispatcher.table - {Seat(k, sid)};
      SubscriberMoved(Seat(k, sid), None);
    }

    /** Both in-memory entries of a session. */
    method Forget(sid: nat)
      requires Valid()
      modifies `tokens, `handles
      ensures Valid()
      ensures Books() == old(Books()).Forget(sid)
    {
      tokens, handles := tokens - {sid}, handles - {sid};
      HandleEntry(sid, None);
      TablesMoved();
    }

    /** The guard token is the one in the table, never the one named on disk. */
    method DropToken(k: TargetKey, sid: nat)
      requires Valid()
      modifies `tokens, guard
      ensures Valid()
      ensures Books() == Ledgers.DropToken(old(Books()), k, sid)
    {
      var t := PopToken(sid);
      ReleaseGuard(k, t);
    }

    method PopToken(sid: nat) returns (t: Option<GuardToken>)
      requires Valid()
      modifies `tokens
      ensures Valid() && t == Lookup(old(tokens), sid) && handles == old(handles)
      ensures Books() == old(Books()).(tokens := old(tokens) - {sid}) && old(tokens) == old(Books()).tokens
    {
      t := Lookup(tokens, sid);
      tokens := tokens - {sid};
      TablesMoved();
    }

    method PopHandle(sid: nat) returns (h: Option<AdmissionHandle>)
      requires Valid()
      modifies `handles
      ensures Valid()
      ensures h == Lookup(old(handles), sid) && (h.Some? ==> h.value in admission.handles)
      ensures Lookup(old(Books()).handles, sid) == if h.Some? then Some(IdOf(h.value)) else None
      ensures Books() == old(Books()).(handles := old(Books()).handles - {sid})
    {
      h := Lookup(handles, sid);
      handles := handles - {sid};
      HandleEntry(sid, None);
      TablesMoved();
    }

    // ----- admission steps of one handle

    method RollbackHandle(h: AdmissionHandle)
      requires Valid() && h in admission.handles
      modifies h, admission`bindings
      ensures Valid()
      ensures Books() == old(Books()).At(h.targetKey, Event.Rollback(h.id))
    {
      hide AdmissionService.Valid, AdmissionService.View, Inv, Step, ConsoleLeaseManager.Valid, HandleIds, Subscriptions;
      var _ := admission.Rollback(h);
      GatesMoved(h.targetKey, Event.Rollback(h.id));
    }

    method CompleteBound(h: AdmissionHandle) returns (failed: bool)
      requires Valid() && h in admission.handles
      modifies h, admission`bindings
      ensures Valid()
      ensures Books() == old(Books()).At(h.targetKey, Event.Complete(h.id))
      ensures old(Books()).GateOf(h.targetKey).Known(h.id)
      ensures failed <==> old(Books()).GateOf(h.targetKey).Complete(h.id).Err?
    {
      hide AdmissionService.Valid, AdmissionService.View, Inv, Step, ConsoleLeaseManager.Valid, HandleIds, Subscriptions;
      admission.Reads(h);
      var r := admission.Complete(h);
      failed := r.Err?;
      GatesMoved(h.targetKey, Event.Complete(h.id));
    }

    method ConfirmBound(h: AdmissionHandle) returns (ok: bool)
      requires Valid() && h in admission.handles
      modifies h
      ensures Valid()
      ensures Books() == old(Books()).At(h.targetKey, Event.ConfirmReaped(h.id))
      ensures old(Books()).GateOf(h.targetKey).Known(h.id)
      ensures ok <==> old(Books()).GateOf(h.targetKey).ConfirmReaped(h.id).Ok?
    {
      hide AdmissionService.Valid, AdmissionService.View, Inv, Step, ConsoleLeaseManager.Valid, HandleIds, Subscriptions;
      admission.Reads(h);
      var r := admission.ConfirmReaped(h);
      ok := r.Ok?;
      GatesMoved(h.targetKey, Event.ConfirmReaped(h.id));
    }

    method AbandonBound(h: AdmissionHandle)
      requires Valid() && h in admission.handles
      modifies h, admission`bindings
      ensures Valid()
      ensures Books() == old(Books()).At(h.targetKey, Event.Abandon(h.id))
    {
      hide AdmissionService.Valid, AdmissionService.View, Inv, Step, ConsoleLeaseManager.Valid, HandleIds, Subscriptions;
      var _ := admission.Abandon(h);
      GatesMoved(h.targetKey, Event.Abandon(h.id));
    }

    /** confirm_reaped and abandon, both best-effort. */
    method ReapHandle(h: Option<AdmissionHandle>)
      requires Valid() && (h.Some? ==> h.value in admission.handles)
      modifies if h.Some? then {h.value} else {}, admission`bindings
      ensures Valid()
      ensures Books() == Ledgers.ReapHandle(old(Books()), if h.Some? then Some(IdOf(h.value)) else None)
    {
      hide Valid, Ledger.At, Ledger.GateOf, Gate.ConfirmReaped;
      if h.Some? {
        assert h.value.targetKey in Books().gates;
        hide Books;
        var ok := ConfirmBound(h.value);
        ReapParts(old(Books()), IdOf(h.value));
        if ok {
          AbandonBound(h.value);
        }
      }
    }

    lemma ReapParts(l: Ledger, h: HandleId)
      requires h.key in l.gates && l.GateOf(h.key).Known(h.id)
      ensures Ledgers.ReapHandle(l, Some(h)) ==
              if l.GateOf(h.key).ConfirmReaped(h.id).Ok?
              then l.At(h.key, Event.ConfirmReaped(h.id)).At(h.key, Event.Abandon(h.id))
              else l.At(h.key, Event.ConfirmReaped(h.id))
    {
    }

    method CompleteHandle(sid: nat) returns (failed: bool)
      requires Valid()
      modifies `handles, admission.handles, admission`bindings
      ensures Valid()
      ensures Outcome(Books(), failed) == Ledgers.CompleteHandle(old(Books()), sid)
    {
      var h := PopHandle(sid);
      failed := false;
      if h.Some? {
        failed := CompleteBound(h.value);
      }
    }

    // ----- the unwind

    method Unwind(k: TargetKey, state: Acquired, h: AdmissionHandle, deleted: bool)
      requires Valid() && h in admission.handles
      modifies `tokens, `handles, registry, dispatcher, leases, leases.Repr(), guard, h, admission`bindings
      ensures Valid()
      ensures Books() == Ledgers.Unwind(old(Books()), k, StateOf(state), IdOf(h), deleted)
    {
      hide Valid, Books, Ledger.At, Ledger.ReleaseLease, Ledger.ReleaseGuard, Ledger.DeleteOwn, Ledger.Forget, Ledger.Unsubscribe;
      if state.session.Some? {
        Forget(state.session.value);
        var _ := DeleteRecord(k, state.session.value, deleted);
        Unsubscribe(k, state.session.value);
      }
      ReleaseLease(k, state.leaseToken);
      ReleaseGuard(k, state.guardToken);
      RollbackHandle(h);
    }

    // ----- open, stage by stage

    /** The attempt an open holding `state` stands at. */
    ghost function Now(state: Acquired, going: bool): Attempt
      reads this, admission, admission.store, admission.handles, registry, guard, leases, leases.Repr(), dispatcher,
            Subscribers()
      requires Valid()
    {
      Attempt(Books(), StateOf(state), going)
    }

    method AdmitOpen(k: TargetKey, request: OpenRequest, recovery: bool) returns (h: Option<AdmissionHandle>)
      requires Valid()
      modifies admission`bindings, admission`issued, admission`handles
      ensures Valid() && old(admission.handles) <= admission.handles
      ensures h.Some? <==> Grant(old(Books()).GateOf(k), recovery, request).Ok?
      ensures h.Some? ==> h.value in admission.handles && fresh(h.value)
                          && IdOf(h.value) == HandleId(k, |old(Books()).GateOf(k).issued|)
      ensures Books() == if h.Some? then old(Books()).At(k, AdmissionOf(recovery, request)) else old(Books())
    {
      hide AdmissionService.View, Inv, Step, ConsoleLeaseManager.Valid, HandleIds, Subscriptions, Gate.Admit, Gate.AdmitRecovery;
      admission.Counted(k);
      var r: Result<AdmissionHandle, Refusal>;
      if recovery {
        r := admission.AdmitRecovery(k, request);
      } else {
        r := admission.Admit(k, request);
      }
      GatesMoved(k, AdmissionOf(recovery, request));
      RefusedGrant(old(Books()), k, recovery, request);
      h := if r.Ok? then Some(r.value) else None;
    }

    lemma RefusedGrant(l: Ledger, k: TargetKey, recovery: bool, request: OpenRequest)
      ensures k in l.gates && Grant(l.GateOf(k), recovery, request).Err?
              ==> l.At(k, AdmissionOf(recovery, request)) == l
    {
    }

    method TakeGuard(k: TargetKey, io: OpenIo) returns (state: Acquired, going: bool)
      requires Valid()
      modifies guard
      ensures Valid() && state.handle.None?
      ensures Now(state, going) == Ledgers.TakeGuard(Attempt(old(Books()), Nothing, true), k, io)
    {
      hide AdmissionService.Valid, AdmissionService.View, ConsoleLeaseManager.Valid, Gates, LeaseViews, HandleIds, Subscriptions;
      state, going := Acquired(None, None, None, None, None), false;
      if io.selected {
        var t := guard.Acquire(k);
        GuardMoved();
        state, going := state.(guardToken := t), t.Some?;
      }
    }

    method AcquireLease(k: TargetKey) returns (t: Option<nat>)
      requires Valid()
      modifies leases, leases.Repr()
      ensures Valid() && fresh(leases.Repr() - old(leases.Repr()))
      ensures var l := old(Books()).LeaseOf(k);
              && t == (if l.owner.Free? then Some(l.generation + 1) else None)
              && Books() == old(Books()).(leases := old(Books()).leases[k := l.Acquire(Transport)])
    {
      hide AdmissionService.Valid, AdmissionService.View, ConsoleLeaseManager.Valid, Gates, HandleIds, Subscriptions;
      var r := leases.Acquire(k, Transport);
      LeasesMoved(k);
      t := if r.Ok? then Some(r.value) else None;
    }

    lemma KeysKnown(k: TargetKey)
      requires Valid()
      ensures k in Books().leases && k in Books().gates
      ensures !Books().LeaseOf(k).owner.Free? ==>
                Books().(leases := Books().leases[k := Books().LeaseOf(k).Acquire(Transport)]) == Books()
    {
      assert !Books().LeaseOf(k).owner.Free? ==> Books().leases[k := Books().LeaseOf(k)] == Books().leases;
    }

    method TakeLease(k: TargetKey, console: bool, acquired: Acquired, begun: bool, io: OpenIo)
      returns (state: Acquired, going: bool)
      requires Valid()
      modifies leases, leases.Repr()
      ensures Valid() && fresh(leases.Repr() - old(leases.Repr())) && state.handle == acquired.handle
      ensures Now(state, going) == Ledgers.TakeLease(old(Now(acquired, begun)), k, console, io)
    {
      hide Valid, Books;
      KeysKnown(k);
      state, going := acquired, begun;
      if going && console {
        var t := AcquireLease(k);
        if t.Some? {
          state := state.(leaseToken := t);
        } else {
          going := false;
        }
      }
      going := going && io.secrets;
    }

    method WriteOpening(k: TargetKey, generation: int, sid: nat, acquired: Acquired, begun: bool, io: OpenIo)
      returns (state: Acquired, going: bool)
      requires Valid()
      modifies `tokens, registry
      ensures Valid() && state.handle == acquired.handle
      ensures Now(state, going) == Ledgers.WriteOpening(old(Now(acquired, begun)), k, generation, sid, io)
    {
      state, going := acquired, false;
      if begun && acquired.guardToken.Some? {
        tokens := tokens[sid := acquired.guardToken.value];
        TablesMoved();
        WriteRecord(RecordFor(k, generation, sid, acquired.leaseToken), io.openingStored);
        if io.openingStored {
          state, going := state.(session := Some(sid)), true;
        }
      }
    }

    /** Each partial the transport reports is written through before it is remembered. */
    method AttachBackend(record: TransportSession, acquired: Acquired, begun: bool, io: OpenIo)
      returns (state: Acquired, going: bool)
      requires Valid()
      modifies registry
      ensures Valid() && state.handle == acquired.handle
      ensures Now(state, going) == Ledgers.Attach(old(Now(acquired, begun)), record, io)
    {
      hide Valid, Books, Ledger.WithRecord;
      state, going := acquired, begun;
      if going {
        ghost var reported := ReportPartials(Now(acquired, true), record, io.partials);
        var i := 0;
        while going && i < |io.partials|
          invariant Valid() && state.handle == acquired.handle
          invariant i <= |io.partials|
          invariant if going then ReportPartials(Now(state, true), record, io.partials[i..]) == reported
                    else Now(state, false) == reported
          decreases |io.partials| - i, going
        {
          var partial := io.partials[i];
          assert io.partials[i..][1..] == io.partials[i + 1..];
          WriteRecord(record.(backendPid := Some(partial.pid)), partial.stored);
          if partial.stored {
            state := state.(pid := Some(partial.pid));
            i := i + 1;
          } else {
            going := false;
          }
        }
        if going && io.attached {
          state := if io.attachedPid.Some? then state.(pid := io.attachedPid) else state;
        } else {
          going := false;
        }
      }
    }

    method WriteReady(record: TransportSession, acquired: Acquired, begun: bool, io: OpenIo) returns (going: bool)
      requires Valid()
      modifies registry
      ensures Valid()
      ensures Now(acquired, going) == Ledgers.WriteReady(old(Now(acquired, begun)), record, io)
    {
      hide Valid, Books;
      going := begun && io.loopback;
      if going {
        WriteRecord(record.(recordState := RecordState.Ready, backendPid := acquired.pid), io.readyStored);
        going := io.readyStored && !io.interrupted;
      }
    }

    method Prepare(k: TargetKey, generation: int, console: bool, sid: nat, io: OpenIo)
      returns (state: Acquired, going: bool)
      requires Valid()
      modifies `tokens, guard, leases, leases.Repr(), registry
      ensures Valid() && state.handle.None? && fresh(leases.Repr() - old(leases.Repr()))
      ensures Now(state, going) == Ledgers.Prepare(old(Books()), k, generation, console, sid, io)
    {
      hide Valid, Books, Ledgers.TakeGuard, Ledgers.TakeLease, Ledgers.WriteOpening, Ledgers.Attach, Ledgers.WriteReady;
      state, going := TakeGuard(k, io);
      state, going := TakeLease(k, console, state, going, io);
      var record := RecordFor(k, generation, sid, state.leaseToken);
      state, going := WriteOpening(k, generation, sid, state, going, io);
      state, going := AttachBackend(record, state, going, io);
      going := WriteReady(record, state, going, io);
    }

    // ----- commit and recovery-gate clearance

    method PromoteBound(h: AdmissionHandle) returns (ok: bool)
      requires Valid() && h in admission.handles
      modifies h
      ensures Valid()
      ensures Books() == if ok then old(Books()).At(h.targetKey, Event.Promote(h.id)) else old(Books())
      ensures ok <==> old(Books()).GateOf(h.targetKey).Promote(h.id).Ok?
    {
      hide AdmissionService.Valid, AdmissionService.View, Inv, Step, ConsoleLeaseManager.Valid, HandleIds, Subscriptions;
      admission.Reads(h);
      var r := admission.Promote(h);
      ok := r.Ok?;
      GatesMoved(h.targetKey, Event.Promote(h.id));
      RefusedPromote(old(Books()), h.targetKey, h.id);
    }

    lemma RefusedPromote(l: Ledger, k: TargetKey, h: nat)
      ensures k in l.gates && l.GateOf(k).Promote(h).Err? ==> l.At(k, Event.Promote(h)) == l
    {
    }

    method RegisterHandle(sid: nat, h: AdmissionHandle)
      requires Valid() && h in admission.handles
      modifies `handles
      ensures Valid()
      ensures Books() == old(Books()).(handles := old(Books()).handles[sid := IdOf(h)])
    {
      handles := handles[sid := h];
      HandleEntry(sid, Some(IdOf(h)));
      TablesMoved();
    }

    method Subscribe(session: TransportSession, state: Acquired)
      requires Valid() && (state.handle.Some? ==> state.handle.value in admission.handles)
      modifies dispatcher
      ensures Valid()
      ensures var seat := Seat(session.targetKey, session.sid);
              Books() == old(Books()).(subscribers :=
                old(Books()).subscribers[seat := Subscription(session, StateOf(state), state.pid.None?)])
    {
      var s := new SessionSubscriber(session, state);
      dispatcher.table := dispatcher.table[Seat(session.targetKey, session.sid) := s];
      SubscriberMoved(Seat(session.targetKey, session.sid), Some(s));
    }

    /** promote, register and subscribe under one key lock. */
    method Commit(session: TransportSession, h: AdmissionHandle, acquired: Acquired, begun: bool)
      returns (state: Acquired, going: bool)
      requires Valid() && h in admission.handles && h.targetKey == session.targetKey
      modifies h, `handles, dispatcher
      ensures Valid()
      ensures Now(state, going) == Ledgers.Commit(old(Now(acquired, begun)), session, IdOf(h))
    {
      hide Valid, Books, Ledger.At, Ledger.GateOf;
      state, going := acquired, begun;
      if going {
        going := PromoteBound(h);
        if going {
          RegisterHandle(session.sid, h);
          state := state.(handle := Some(h));
          Subscribe(session, state);
        }
      }
    }

    method ClearCache(k: TargetKey, generation: int)
      requires Valid()
      modifies admission`recoveryRequired
      ensures Valid()
      ensures Books() == old(Books()).At(k, ClearRecovery(generation))
    {
      hide AdmissionService.Valid, AdmissionService.View, Inv, Step, ConsoleLeaseManager.Valid, HandleIds, Subscriptions;
      admission.ClearRecoveryRequired(k, generation);
      GatesMoved(k, ClearRecovery(generation));
    }

    method UnlinkTombstone(k: TargetKey, generation: int, ok: bool) returns (failed: bool)
      requires Valid()
      modifies registry
      ensures Valid()
      ensures failed <==> old(Books()).Tombstoned(k, generation) && !ok
      ensures Books() == old(Books()).ClearTomb(k, generation, ok)
    {
      failed := registry.ClearTombstone(k, generation, ok);
      FilesMoved();
    }

    /** Durable first: the cache is cleared only after the tombstone is gone. */
    method ClearGate(k: TargetKey, generation: int, state: Acquired, begun: bool, io: OpenIo) returns (going: bool)
      requires Valid()
      modifies registry, admission`recoveryRequired
      ensures Valid()
      ensures Now(state, going) == Ledgers.ClearGate(old(Now(state, begun)), k, generation, io)
    {
      hide Valid, Books, Ledger.At;
      going := begun;
      if going {
        var failed := UnlinkTombstone(k, generation, io.unlinked);
        if failed {
          going := false;
        } else {
          ClearCache(k, generation);
        }
      }
    }

    method Conclude(k: TargetKey, generation: int, recovery: bool, h: AdmissionHandle, acquired: Acquired, begun: bool, io: OpenIo)
      returns (state: Acquired, going: bool)
      requires Valid() && h in admission.handles && h.targetKey == k
      modifies h, `handles, dispatcher, registry, admission`recoveryRequired
      ensures Valid()
      ensures Now(state, going) == Ledgers.Conclude(old(Now(acquired, begun)), k, generation, recovery, IdOf(h), io)
    {
      hide Valid, Books, Ledgers.Commit, Ledgers.ClearGate;
      state, going := acquired, false;
      if begun && acquired.session.Some? {
        var session := RecordFor(k, generation, acquired.session.value, acquired.leaseToken)
                         .(recordState := RecordState.Ready, backendPid := acquired.pid);
        state, going := Commit(session, h, acquired, true);
        if recovery {
          going := ClearGate(k, generation, state, going, io);
        }
      }
    }

    /** The open transaction. None is a failure: admission refused it, or it has been unwound. */
    method Open(k: TargetKey, request: OpenRequest, recovery: bool, console: bool, sid: nat, io: OpenIo)
      returns (session: Option<nat>)
      requires Valid()
      modifies this, admission, admission.handles, registry, guard, leases, leases.Repr(), dispatcher
      ensures Valid()
      ensures Books() == OpenSession(old(Books()), k, request, recovery, console, sid, io).ledger
      ensures session == if OpenSession(old(Books()), k, request, recovery, console, sid, io).going then Some(sid) else None
    {
      hide Valid, Books, Ledger.At, Grant, Ledgers.Prepare, Ledgers.Conclude, Ledgers.Unwind, Ledger.GateOf;
      var h := AdmitOpen(k, request, recovery);
      if h.None? {
        return None;
      }
      var state, going := Prepare(k, request.generation, console, sid, io);
      state, going := Conclude(k, request.generation, recovery, h.value, state, going, io);
      if going {
        return Some(sid);
      }
      Unwind(k, state, h.value, io.deleted);
      return None;
    }

    // ----- close, force_release and the subscriber

    method MarkCache(k: TargetKey, generation: int)
      requires Valid()
      modifies admission`recoveryRequired
      ensures Valid()
      ensures Books() == old(Books()).At(k, MarkRecovery(generation))
    {
      hide AdmissionService.Valid, AdmissionService.View, Inv, Step, ConsoleLeaseManager.Valid, HandleIds, Subscriptions;
      admission.MarkRecoveryRequired(k, generation);
      GatesMoved(k, MarkRecovery(generation));
    }

    method WriteTombstone(k: TargetKey, generation: int)
      requires Valid()
      modifies registry
      ensures Valid()
      ensures Books() == old(Books()).(files := old(Books()).files.(
                tombs := old(Books()).files.tombs[k := Marker(generation, ClosedWhileHalted)]))
    {
      registry.WriteTombstone(k, generation, ClosedWhileHalted, true);
      FilesMoved();
    }

    method MarkParked(record: TransportSession, force: bool, io: CloseIo)
      requires Valid()
      modifies registry, admission`recoveryRequired
      ensures Valid()
      ensures Books() == Ledgers.MarkParked(old(Books()), record, force, io)
    {
      hide Valid, Books, Ledger.At;
      if Parks(record, force) && io.tombStored {
        WriteTombstone(record.targetKey, record.generation);
        MarkCache(record.targetKey, record.generation);
      }
    }

    /** A record on disk that names the session, the first one listed if there are several. */
    method RecordBySessionId(sid: nat) returns (r: Option<TransportSession>, ghost at: Option<TargetKey>)
      requires Valid()
      ensures Valid() && Books() == old(Books())
      ensures Finds(Books(), sid, at)
      ensures r == if at.Some? then Some(Books().files.records[at.value]) else None
      ensures at.Some? ==> Books().files.records[at.value].targetKey == at.value
    {
      hide AdmissionService.View, AdmissionService.Linked, Inv;
      var rs := registry.ListRecords();
      for i := 0 to |rs|
        invariant forall j | 0 <= j < i :: rs[j].sid != sid
      {
        if rs[i].sid == sid {
          assert rs[i] in rs;
          return Some(rs[i]), Some(rs[i].targetKey);
        }
      }
      assert forall s | s in rs :: s.sid != sid;
      return None, None;
    }

    method CloseRecord(record: TransportSession, force: bool, io: CloseIo) returns (failed: bool)
      requires Valid()
      modifies this, admission`bindings, admission`recoveryRequired, admission.handles, registry, guard, leases, leases.Repr(),
               dispatcher
      ensures Valid() && fresh(leases.Repr() - old(leases.Repr()))
      ensures Outcome(Books(), failed) == Ledgers.CloseRecord(old(Books()), record, force, io)
    {
      hide Valid, Books, Ledger.ReleaseLease, Ledgers.DropToken, Ledgers.CompleteHandle, Ledgers.MarkParked, Ledger.Unsubscribe;
      var k, sid := record.targetKey, record.sid;
      WriteRecord(record.(recordState := Closing), true);
      ReleaseLease(k, record.leaseToken);
      DropToken(k, sid);
      var incomplete := CompleteHandle(sid);
      MarkParked(record, force, io);
      var _ := DeleteRecord(k, sid, io.deleted);
      Unsubscribe(k, sid);
      failed := !io.transportClosed || incomplete || (Parks(record, force) && !io.tombStored) || !io.deleted;
    }

    /** The CLOSING write comes first: if it fails, nothing else is done. */
    method Close(sid: nat, force: bool, io: CloseIo) returns (failed: bool, ghost at: Option<TargetKey>)
      requires Valid()
      modifies this, admission`bindings, admission`recoveryRequired, admission.handles, registry, guard, leases, leases.Repr(),
               dispatcher
      ensures Valid() && fresh(leases.Repr() - old(leases.Repr()))
      ensures Finds(old(Books()), sid, at) && Outcome(Books(), failed) == CloseFound(old(Books()), at, force, io)
    {
      hide Valid, Books, Ledgers.CloseRecord;
      var record;
      record, at := RecordBySessionId(sid);
      if record.None? {
        return false, at;
      }
      if !io.closingStored {
        return true, at;
      }
      failed := CloseRecord(record.value, force, io);
    }

    method ReleaseRecord(record: TransportSession, deleted: bool) returns (failed: bool)
      requires Valid()
      modifies this, admission`bindings, admission.handles, registry, guard, leases, leases.Repr(), dispatcher
      ensures Valid()
      ensures Outcome(Books(), failed) == Ledgers.ReleaseRecord(old(Books()), record, deleted)
    {
      hide Valid, Books, Ledger.ReleaseLease, Ledgers.DropToken, Ledgers.ReapHandle, Ledger.Unsubscribe, Ledger.Owns;
      var k, sid := record.targetKey, record.sid;
      ReleaseLease(k, record.leaseToken);
      DropToken(k, sid);
      var h := PopHandle(sid);
      ReapHandle(h);
      failed := DeleteRecord(k, sid, deleted);
      if !failed {
        Unsubscribe(k, sid);
      }
    }

    method ForceRelease(sid: nat, deleted: bool) returns (failed: bool, ghost at: Option<TargetKey>)
      requires Valid()
      modifies this, admission`bindings, admission.handles, registry, guard, leases, leases.Repr(), dispatcher
      ensures Valid()
      ensures Finds(old(Books()), sid, at) && Outcome(Books(), failed) == ReleaseFound(old(Books()), sid, at, deleted)
    {
      hide Valid, Books, Ledgers.ReleaseRecord;
      var record;
      record, at := RecordBySessionId(sid);
      if record.None? {
        Forget(sid);
        return false, at;
      }
      failed := ReleaseRecord(record.value, deleted);
    }

    /** The subscriber's non-blocking release of everything its session recorded. */
    method ForceDrop(s: SessionSubscriber, deleted: bool) returns (failed: bool)
      requires Valid() && (s.state.handle.Some? ==> s.state.handle.value in admission.handles)
      modifies this, admission`bindings, admission.handles, registry, guard, leases, leases.Repr(), dispatcher
      ensures Valid() && s.killed == old(s.killed)
      ensures Outcome(Books(), failed) == Ledgers.ForceDrop(old(Books()), SubscriptionOf(s), deleted)
    {
      hide Valid, Books, Ledger.ReleaseLease, Ledger.ReleaseGuard, Ledgers.ReapHandle, Ledger.Unsubscribe, Ledger.Owns;
      var k, sid := s.session.targetKey, s.session.sid;
      ReleaseLease(k, s.state.leaseToken);
      ReleaseGuard(k, s.state.guardToken);
      var _ := PopToken(sid);
      ReapHandle(s.state.handle);
      var _ := PopHandle(sid);
      failed := false;
      if s.killed {
        failed := DeleteRecord(k, sid, deleted);
      }
      if !failed {
        Unsubscribe(k, sid);
      }
    }

    /** Read back after a close: no record, or one that does not report HALTED. */
    method ResumeHolds(k: TargetKey) returns (ok: bool)
      requires Valid()
      ensures Valid() && Books() == old(Books())
      ensures ok <==> Ledgers.ResumeHolds(Books(), k)
    {
      return k !in registry.records || !registry.records[k].executionState.Halted?;
    }

    method ResolveKill(s: SessionSubscriber)
      requires Valid()
      modifies s
      ensures Valid() && s.killed
      ensures Books() == Resolved(old(Books()), old(SubscriptionOf(s)), Registered(s))
    {
      s.killed := true;
      SubscriberKilled(s);
    }

    predicate Registered(s: SessionSubscriber)
      reads dispatcher
    {
      var seat := Seat(s.session.targetKey, s.session.sid);
      seat in dispatcher.table && dispatcher.table[seat] == s
    }

    twostate lemma SubscriberKilled(s: SessionSubscriber)
      requires old(Valid()) && s.killed && unchanged(dispatcher)
      requires unchanged(admission) && unchanged(admission.store) && forall h | h in admission.handles :: unchanged(h)
      requires unchanged(leases) && forall k | k in leases.leases :: unchanged(leases.leases[k])
      requires unchanged(guard) && unchanged(registry) && unchanged(this)
      requires forall seat | seat in dispatcher.table && dispatcher.table[seat] != s :: unchanged(dispatcher.table[seat])
      ensures Valid() && Books() == Resolved(old(Books()), old(SubscriptionOf(s)), Registered(s))
    {
      hide AdmissionService.Valid, AdmissionService.View, ConsoleLeaseManager.Valid, Gates, LeaseViews, Subscriptions;
      SameGates();
      SameLeases();
      SubscriptionKilled(s);
    }

    twostate lemma SubscriptionKilled(s: SessionSubscriber)
      requires s.killed && unchanged(dispatcher)
      requires forall seat | seat in dispatcher.table :: seat == Seat(dispatcher.table[seat].session.targetKey, dispatcher.table[seat].session.sid)
      requires forall seat | seat in dispatcher.table && dispatcher.table[seat] != s :: unchanged(dispatcher.table[seat])
      ensures Subscriptions() == if Registered(s)
                then old(Subscriptions())[Seat(s.session.targetKey, s.session.sid) := old(SubscriptionOf(s)).(killed := true)]
                else old(Subscriptions())
    {
    }

    /** The subscriber's supervised teardown: once the kill has resolved, the record may go too. */
    method Invalidate(s: SessionSubscriber, deleted: bool) returns (failed: bool)
      requires Valid() && (s.state.handle.Some? ==> s.state.handle.value in admission.handles)
      modifies s, this, admission`bindings, admission.handles, registry, guard, leases, leases.Repr(), dispatcher
      ensures Valid()
      ensures Outcome(Books(), failed) == Ledgers.Invalidate(old(Books()), old(SubscriptionOf(s)), old(Registered(s)), deleted)
    {
      hide Valid, Books, Ledgers.ForceDrop, Resolved, Registered;
      ResolveKill(s);
      failed := ForceDrop(s, deleted);
    }
  }
}
