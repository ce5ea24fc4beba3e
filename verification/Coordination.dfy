/**
  The coordination protocol of one target key as a step machine: any number of
  opening sessions, their owners' close and force_release, lifecycle resets and
  out-of-band teardown workers interleave step by step over the shared admission
  gate, guard, console lease, durable record, in-memory tables and dispatcher
  subscriptions; and the invariant of its states, one session's view at a time.

  A session is named by its position in `sessions`, which is also its session id.
  A guard or lease token is the number of tokens issued before it; `grants`, `leases` and
  `admitted` remember which session each token and handle was issued to.
 */
module Coordination {
  import opened Common
  import opened Admission

  datatype Phase =
    | Starting | Admitted | Guarded | Leased | Recorded | ReadyWritten | Committed | GateUnlinked | Opened
    | Unwinding(step: nat)
    | Failed

  /** A call of the owner's close, or of its force_release, and how far it has come. */
  datatype Ending = Ending(release: bool, step: nat)

  /**
    What the owner has done with an open session. `given` grows: 1 once a call has begun, 2 with the
    lease given back, 3 the guard, 4 the handle's entry, 5 the handle settled, 6 the delete tried,
    7 unsubscribed. `stranded` says force_release let go of the handle while the target was open,
    `erased` that a call's delete of the record has gone through.
   */
  datatype Ownership = Ownership(call: Option<Ending>, given: nat, stranded: bool, erased: bool)

  const Untouched := Ownership(None, 0, false, false)

  datatype Session = Session(
    phase: Phase,
    recovery: bool,
    console: bool,
    handle: Option<nat>,
    guard: Option<nat>,
    lease: Option<nat>,
    recorded: bool,
    pid: Option<nat>,
    promoted: bool,
    undeleted: bool,
    owner: Ownership)

  datatype Record = Record(sid: nat, pid: Option<nat>)

  /** One run of a subscriber's invalidate (which kills first) or force_drop. */
  datatype Worker = Worker(sid: nat, killPending: bool, step: nat)

  /** A closing invalidation: the sessions admitted and those subscribed when it closed admission. */
  datatype Reset = Reset(admitted: set<nat>, targets: set<nat>)

  datatype World = World(
    adm: Gate,
    holder: Option<nat>,
    grants: seq<nat>,
    lease: Option<nat>,
    leases: seq<nat>,
    record: Option<Record>,
    tokens: map<nat, nat>,
    handles: map<nat, nat>,
    subscribed: set<nat>,
    killed: set<nat>,
    sessions: seq<Session>,
    workers: seq<Worker>,
    resets: seq<Reset>,
    admitted: map<nat, nat>,
    touched: set<nat>,
    torn: set<nat>,
    lastWriter: Option<nat>)

  const Idle := World(Unpublished, None, [], None, [], None, map[], map[], {}, {}, [], [], [], map[], {}, {}, None)

  datatype Action =
    | Begin(recovery: bool, console: bool)
    | AdmitSession(i: nat, request: OpenRequest)
    | AcquireGuard(i: nat)
    | AcquireLease(i: nat)
    | WriteOpening(i: nat, ok: bool)
    | WriteBackend(i: nat, pid: nat)
    | LearnBackend(i: nat, pid: nat)
    | WriteReady(i: nat)
    | Commit(i: nat)
    | Unlink(i: nat, ok: bool)
    | ClearCache(i: nat)
    | Abort(i: nat)
    | Unwind(i: nat, ok: bool)
    | StartEnd(i: nat, release: bool, ok: bool)
    | EndStep(i: nat, ok: bool)
    | Invalidate(generation: int)
    | Spawn(i: nat, kill: bool)
    | Work(k: nat)
    | Other(event: Event)

  function SetSession(w: World, i: nat, s: Session): World
    requires i < |w.sessions|
  {
    w.(sessions := w.sessions[i := s])
  }

  function SetPhase(w: World, i: nat, phase: Phase): World
    requires i < |w.sessions|
  {
    SetSession(w, i, w.sessions[i].(phase := phase))
  }

  // ----- the steps of one open, in acquisition order

  function AdmitStep(w: World, i: nat, request: OpenRequest): World
    requires i < |w.sessions|
  {
    var r := Grant(w.adm, w.sessions[i].recovery, request);
    if r.Err? then SetPhase(w, i, Failed)
    else SetSession(w, i, w.sessions[i].(phase := Admitted, handle := Some(|w.adm.issued|))).(
           adm := r.value, admitted := w.admitted[|w.adm.issued| := i])
  }

  function GuardStep(w: World, i: nat): World
    requires i < |w.sessions|
  {
    if w.holder.Some? then SetPhase(w, i, Unwinding(0))
    else
      var t := |w.grants|;
      SetSession(w, i, w.sessions[i].(phase := Guarded, guard := Some(t))).(holder := Some(t), grants := w.grants + [i])
  }

  function LeaseStep(w: World, i: nat): World
    requires i < |w.sessions|
  {
    if !w.sessions[i].console then SetPhase(w, i, Leased)
    else if w.lease.Some? then SetPhase(w, i, Unwinding(0))
    else
      var t := |w.leases|;
      SetSession(w, i, w.sessions[i].(phase := Leased, lease := Some(t))).(lease := Some(t), leases := w.leases + [i])
  }

  /** The token enters its table before the write; only a successful write is remembered for unwinding. */
  function OpeningStep(w: World, i: nat, ok: bool): World
    requires i < |w.sessions| && w.sessions[i].guard.Some?
  {
    var v := w.(tokens := w.tokens[i := w.sessions[i].guard.value]);
    if !ok then SetPhase(v, i, Unwinding(0))
    else SetSession(v, i, v.sessions[i].(phase := Recorded, recorded := true)).(
           record := Some(Record(i, None)), lastWriter := Some(i))
  }

  function WriteRecord(w: World, i: nat, phase: Phase, pid: Option<nat>): World
    requires i < |w.sessions|
  {
    SetSession(w, i, w.sessions[i].(phase := phase, pid := pid)).(
      record := Some(Record(i, pid)), lastWriter := Some(i))
  }

  function Committing(w: World, i: nat): World
    requires i < |w.sessions| && w.sessions[i].handle.Some?
  {
    var s := w.sessions[i];
    SetSession(w, i, s.(phase := if s.recovery then Committed else Opened, promoted := true)).(
      handles := w.handles[i := s.handle.value],
      subscribed := w.subscribed + {i},
      killed := if s.pid.None? then w.killed + {i} else w.killed)
  }

  /** promote, register the handle and subscribe, in one critical section. */
  function CommitStep(w: World, i: nat): World
    requires i < |w.sessions| && w.sessions[i].handle.Some?
  {
    var r := w.adm.Promote(w.sessions[i].handle.value);
    if r.Err? then SetPhase(w, i, Unwinding(0)) else Committing(w.(adm := r.value), i)
  }

  /** Fenced release: only the current holder's own token frees it. */
  function Freed(holder: Option<nat>, token: Option<nat>): Option<nat> {
    if token.Some? && holder == token then None else holder
  }

  /** Fenced delete: only the session's own record goes. */
  function Erased(record: Option<Record>, sid: nat): Option<Record> {
    if record.Some? && record.value.sid == sid then None else record
  }

  // ----- the unwind, in reverse order

  function UnwindTables(w: World, i: nat): World
    requires i < |w.sessions|
  {
    var mine := if w.sessions[i].recorded then {i} else {};
    SetPhase(w, i, Unwinding(1)).(tokens := w.tokens - mine, handles := w.handles - mine)
  }

  /** `ok` says whether the delete succeeds; its failure is logged, remembered and passed over. */
  function UnwindRecord(w: World, i: nat, ok: bool): World
    requires i < |w.sessions|
  {
    SetSession(w, i, w.sessions[i].(phase := Unwinding(2), undeleted := !ok)).(
      record := if w.sessions[i].recorded && ok then Erased(w.record, i) else w.record)
  }

  function UnwindSubscription(w: World, i: nat): World
    requires i < |w.sessions|
  {
    var mine := if w.sessions[i].recorded then {i} else {};
    SetPhase(w, i, Unwinding(3)).(subscribed := w.subscribed - mine)
  }

  function UnwindLease(w: World, i: nat): World
    requires i < |w.sessions|
  {
    SetPhase(w, i, Unwinding(4)).(lease := Freed(w.lease, w.sessions[i].lease))
  }

  function UnwindGuard(w: World, i: nat): World
    requires i < |w.sessions|
  {
    SetPhase(w, i, Unwinding(5)).(holder := Freed(w.holder, w.sessions[i].guard))
  }

  function UnwindHandle(w: World, i: nat): World
    requires i < |w.sessions| && w.sessions[i].handle.Some?
  {
    SetPhase(w, i, Failed).(adm := Step(w.adm, Rollback(w.sessions[i].handle.value)))
  }

  function UnwindStep(w: World, i: nat, ok: bool): World
    requires i < |w.sessions| && w.sessions[i].phase.Unwinding? && w.sessions[i].handle.Some?
  {
    match w.sessions[i].phase.step
    case 0 => UnwindTables(w, i)
    case 1 => UnwindRecord(w, i, ok)
    case 2 => UnwindSubscription(w, i)
    case 3 => UnwindLease(w, i)
    case 4 => UnwindGuard(w, i)
    case _ => UnwindHandle(w, i)
  }

  // ----- the owner's close and force_release of an open session

  function Max(m: nat, n: nat): nat {
    if m < n then n else m
  }

  /** The call goes on to step n. */
  function Called(o: Ownership, release: bool, n: nat): Ownership {
    o.(call := Some(Ending(release, n)), given := Max(o.given, n + 1))
  }

  /** The call returns. */
  function Over(o: Ownership, n: nat): Ownership {
    o.(call := None, given := Max(o.given, n))
  }

  /** close passes over a failed delete, force_release raises it and goes no further. */
  function Tried(o: Ownership, release: bool, ok: bool): Ownership {
    var d := o.(erased := o.erased || ok);
    if release && !ok then Over(d, 6) else Called(d, release, 5)
  }

  function Calling(s: Session, release: bool, n: nat): Session {
    s.(owner := Called(s.owner, release, n))
  }

  function Returned(s: Session, n: nat): Session {
    s.(owner := Over(s.owner, n))
  }

  function Stranding(s: Session, open: bool): Session {
    s.(owner := s.owner.(stranded := s.owner.stranded || open))
  }

  function Deleted(s: Session, release: bool, ok: bool): Session {
    s.(owner := Tried(s.owner, release, ok))
  }

  /** The next step of the running call. */
  function On(s: Session, n: nat): Session
    requires s.owner.call.Some?
  {
    Calling(s, s.owner.call.value.release, n)
  }

  function Proceed(w: World, i: nat, n: nat): World
    requires i < |w.sessions| && w.sessions[i].owner.call.Some?
  {
    SetSession(w, i, On(w.sessions[i], n))
  }

  /**
    Finds the session's own record. Without one close does nothing and force_release forgets the table
    entries. With one, close first rewrites it as CLOSING, which changes neither session nor pid; when
    that write is refused close has done nothing.
   */
  function StartStep(w: World, i: nat, release: bool, ok: bool): World
    requires i < |w.sessions|
  {
    if w.record.Some? && w.record.value.sid == i then
      if release || ok then SetSession(w, i, Calling(w.sessions[i], release, 0)) else w
    else if release then w.(tokens := w.tokens - {i}, handles := w.handles - {i})
    else w
  }

  function EndLease(w: World, i: nat): World
    requires i < |w.sessions| && w.sessions[i].owner.call.Some?
  {
    Proceed(w, i, 1).(lease := Freed(w.lease, w.sessions[i].lease))
  }

  /** The guard is released by the token popped from its table, if there is one. */
  function EndGuard(w: World, i: nat): World
    requires i < |w.sessions| && w.sessions[i].owner.call.Some?
  {
    Proceed(w, i, 2).(holder := Freed(w.holder, Lookup(w.tokens, i)), tokens := w.tokens - {i})
  }

  /** close: the popped handle is completed, and a refusal is passed over. */
  function EndComplete(w: World, i: nat): World
    requires i < |w.sessions| && w.sessions[i].owner.call.Some?
  {
    Proceed(w, i, 4).(adm := if i in w.handles then Step(w.adm, Complete(w.handles[i])) else w.adm,
                      handles := w.handles - {i})
  }

  predicate Reaps(w: World, i: nat) {
    i in w.handles && w.adm.Known(w.handles[i]) && w.adm.ConfirmReaped(w.handles[i]).Ok?
  }

  /** force_release: the popped handle is confirmed reaped; a refusal skips the abandon. */
  function EndConfirm(w: World, i: nat): World
    requires i < |w.sessions| && w.sessions[i].owner.call.Some?
  {
    if Reaps(w, i) then Proceed(w, i, 3).(adm := Step(w.adm, ConfirmReaped(w.handles[i])), handles := w.handles - {i})
    else SetSession(w, i, Stranding(On(w.sessions[i], 4), i in w.handles && w.adm.closedAt.None?)).(
           handles := w.handles - {i})
  }

  function EndAbandon(w: World, i: nat): World
    requires i < |w.sessions| && w.sessions[i].owner.call.Some? && w.sessions[i].handle.Some?
  {
    Proceed(w, i, 4).(adm := Step(w.adm, Abandon(w.sessions[i].handle.value)))
  }

  /** The fenced delete. */
  function EndDelete(w: World, i: nat, ok: bool): World
    requires i < |w.sessions| && w.sessions[i].owner.call.Some?
  {
    SetSession(w, i, Deleted(w.sessions[i], w.sessions[i].owner.call.value.release, ok)).(
      record := if ok then Erased(w.record, i) else w.record)
  }

  function EndUnsubscribe(w: World, i: nat): World
    requires i < |w.sessions|
  {
    SetSession(w, i, Returned(w.sessions[i], 7)).(subscribed := w.subscribed - {i})
  }

  function EndCall(w: World, i: nat, ok: bool): World
    requires i < |w.sessions| && w.sessions[i].owner.call.Some? && w.sessions[i].handle.Some?
  {
    match w.sessions[i].owner.call.value.step
    case 0 => EndLease(w, i)
    case 1 => EndGuard(w, i)
    case 2 => if w.sessions[i].owner.call.value.release then EndConfirm(w, i) else EndComplete(w, i)
    case 3 => EndAbandon(w, i)
    case 4 => EndDelete(w, i, ok)
    case _ => EndUnsubscribe(w, i)
  }

  // ----- a teardown worker over the state its session committed with

  function Advance(w: World, k: nat): World
    requires k < |w.workers|
  {
    w.(workers := w.workers[k := w.workers[k].(step := w.workers[k].step + 1)])
  }

  function WorkKill(w: World, k: nat): World
    requires k < |w.workers|
  {
    w.(killed := w.killed + {w.workers[k].sid}, workers := w.workers[k := w.workers[k].(killPending := false)])
  }

  /** confirm_reaped; when it is refused, the abandon that follows it is skipped. */
  function WorkConfirm(w: World, k: nat, h: nat): World
    requires k < |w.workers| && w.adm.Known(h)
  {
    if w.adm.ConfirmReaped(h).Err? then w.(workers := w.workers[k := w.workers[k].(step := 5)])
    else Advance(w, k).(adm := w.adm.ConfirmReaped(h).value)
  }

  function WorkDelete(w: World, k: nat): World
    requires k < |w.workers|
  {
    Advance(w, k).(record := if w.workers[k].sid in w.killed then Erased(w.record, w.workers[k].sid) else w.record)
  }

  function WorkUnsubscribe(w: World, k: nat): World
    requires k < |w.workers|
  {
    Advance(w, k).(subscribed := w.subscribed - {w.workers[k].sid}, torn := w.torn + {w.workers[k].sid})
  }

  function WorkStep(w: World, k: nat): World
    requires k < |w.workers| && w.workers[k].sid < |w.sessions|
    requires var h := w.sessions[w.workers[k].sid].handle; h.Some? && w.adm.Known(h.value)
  {
    var t := w.workers[k];
    var s := w.sessions[t.sid];
    if t.killPending then WorkKill(w, k)
    else
      match t.step
      case 0 => Advance(w, k).(lease := Freed(w.lease, s.lease))
      case 1 => Advance(w, k).(holder := Freed(w.holder, s.guard))
      case 2 => Advance(w, k).(tokens := w.tokens - {t.sid})
      case 3 => WorkConfirm(w, k, s.handle.value)
      case 4 => Advance(w, k).(adm := Step(w.adm, Abandon(s.handle.value)))
      case 5 => Advance(w, k).(handles := w.handles - {t.sid})
      case 6 => WorkDelete(w, k)
      case 7 => WorkUnsubscribe(w, k)
      case _ => w
  }

  function Admittees(w: World): set<nat> {
    set i | 0 <= i < |w.sessions| && w.sessions[i].handle.Some?
  }

  function Subscribers(w: World): set<nat> {
    set i | 0 <= i < |w.sessions| && i in w.subscribed
  }

  predicate CanAbort(phase: Phase) {
    phase.Admitted? || phase.Guarded? || phase.Leased? || phase.Recorded? || phase.ReadyWritten?
  }

  /** The session is a target of some reset. */
  predicate Targeted(resets: seq<Reset>, i: nat) {
    exists r | 0 <= r < |resets| :: i in resets[r].targets
  }

  /** Gate events of other actors: anything that is neither a reset nor a step of a transport.open handle. */
  predicate Foreign(g: Gate, e: Event) {
    match e
    case Admit(_) => false
    case AdmitRecovery(_) => false
    case Close(_) => false
    case Promote(h) => g.Known(h) && g.issued[h].op.SshTier?
    case Complete(h) => g.Known(h) && g.issued[h].op.SshTier?
    case Rollback(h) => g.Known(h) && g.issued[h].op.SshTier?
    case ConfirmReaped(h) => g.Known(h) && g.issued[h].op.SshTier?
    case Abandon(h) => g.Known(h) && g.issued[h].op.SshTier?
    case _ => true
  }

  predicate AtPhase(w: World, i: nat, phase: Phase) {
    i < |w.sessions| && w.sessions[i].phase == phase
  }

  /** Session ids are drawn fresh: nothing on disk or in memory speaks of a new one. */
  predicate Unheard(w: World, i: nat) {
    && i !in w.tokens && i !in w.handles && i !in w.subscribed && i !in w.killed && i !in w.touched && i !in w.torn
    && (w.record.None? || w.record.value.sid != i) && w.lastWriter != Some(i)
  }

  predicate Enabled(w: World, a: Action) {
    match a
    case Begin(_, _) => Unheard(w, |w.sessions|)
    case AdmitSession(i, _) => AtPhase(w, i, Starting)
    case AcquireGuard(i) => AtPhase(w, i, Admitted)
    case AcquireLease(i) => AtPhase(w, i, Guarded)
    case WriteOpening(i, _) => AtPhase(w, i, Leased) && w.sessions[i].guard.Some?
    case WriteBackend(i, _) => AtPhase(w, i, Recorded)
    case LearnBackend(i, _) => AtPhase(w, i, Recorded)
    case WriteReady(i) => AtPhase(w, i, Recorded)
    case Commit(i) => AtPhase(w, i, ReadyWritten) && w.sessions[i].handle.Some?
    case Unlink(i, _) => AtPhase(w, i, Committed)
    case ClearCache(i) => AtPhase(w, i, GateUnlinked) && w.sessions[i].handle.Some?
                          && w.adm.Known(w.sessions[i].handle.value)
    case Abort(i) => i < |w.sessions| && CanAbort(w.sessions[i].phase)
    case Unwind(i, _) => i < |w.sessions| && w.sessions[i].phase.Unwinding? && w.sessions[i].handle.Some?
    case StartEnd(i, _, _) => AtPhase(w, i, Opened) && w.sessions[i].owner.call.None?
    case EndStep(i, _) => AtPhase(w, i, Opened) && w.sessions[i].owner.call.Some? && w.sessions[i].handle.Some?
    case Invalidate(_) => true
    case Spawn(i, _) => i < |w.sessions| && Targeted(w.resets, i)
    case Work(k) => k < |w.workers| && w.workers[k].sid < |w.sessions|
                    && var h := w.sessions[w.workers[k].sid].handle; h.Some? && w.adm.Known(h.value)
    case Other(e) => Foreign(w.adm, e)
  }

  function Act(w: World, a: Action): World
    requires Enabled(w, a)
  {
    match a
    case Begin(recovery, console) =>
      w.(sessions := w.sessions + [Session(Starting, recovery, console, None, None, None, false, None, false, false, Untouched)])
    case AdmitSession(i, request) => AdmitStep(w, i, request)
    case AcquireGuard(i) => GuardStep(w, i)
    case AcquireLease(i) => LeaseStep(w, i)
    case WriteOpening(i, ok) => OpeningStep(w, i, ok)
    case WriteBackend(i, pid) => WriteRecord(w, i, Recorded, Some(pid))
    case LearnBackend(i, pid) => SetSession(w, i, w.sessions[i].(pid := Some(pid)))
    case WriteReady(i) => WriteRecord(w, i, ReadyWritten, w.sessions[i].pid)
    case Commit(i) => CommitStep(w, i)
    case Unlink(i, ok) => SetPhase(w, i, if ok then GateUnlinked else Unwinding(0))
    case ClearCache(i) =>
      SetPhase(w, i, Opened).(adm := w.adm.ClearRecovery(w.adm.issued[w.sessions[i].handle.value].generation))
    case Abort(i) => SetPhase(w, i, Unwinding(0))
    case Unwind(i, ok) => UnwindStep(w, i, ok)
    case StartEnd(i, release, ok) => StartStep(w, i, release, ok)
    case EndStep(i, ok) => EndCall(w, i, ok)
    case Invalidate(generation) =>
      if w.adm.StaleClose(generation) then w
      else w.(adm := w.adm.Close(generation), resets := w.resets + [Reset(Admittees(w), Subscribers(w))])
    case Spawn(i, kill) => w.(workers := w.workers + [Worker(i, kill, 0)], touched := w.touched + {i})
    case Work(k) => WorkStep(w, k)
    case Other(e) => w.(adm := Step(w.adm, e))
  }

  /** A disabled action does nothing. */
  function Next(w: World, a: Action): World {
    if Enabled(w, a) then Act(w, a) else w
  }

  function Perform(w: World, actions: seq<Action>): World
    decreases |actions|
  {
    if actions == [] then w else Perform(Next(w, actions[0]), actions[1..])
  }

  // ----- what one session can observe of the world

  datatype Local = Local(
    s: Session,
    named: bool,
    guardHeld: bool,
    leaseHeld: bool,
    binding: Option<Binding>,
    live: bool,
    closed: bool,
    token: Option<nat>,
    entry: Option<nat>,
    subscribed: bool,
    killed: bool,
    touched: bool,
    torn: bool,
    targeted: bool,
    record: Option<Record>,
    wroteLast: bool)

  predicate Issued(owners: seq<nat>, token: Option<nat>, i: nat) {
    token.Some? ==> token.value < |owners| && owners[token.value] == i
  }

  predicate HandleIssued(owners: map<nat, nat>, handle: Option<nat>, i: nat) {
    handle.Some? ==> Lookup(owners, handle.value) == Some(i)
  }

  predicate Held(holder: Option<nat>, token: Option<nat>) {
    token.Some? && holder == token
  }

  function BindingOf(g: Gate, handle: Option<nat>): Option<Binding> {
    if handle.Some? && g.Known(handle.value) then Some(g.issued[handle.value]) else None
  }

  predicate LiveIn(g: Gate, handle: Option<nat>) {
    handle.Some? && handle.value in g.live
  }

  function OwnRecord(record: Option<Record>, i: nat): Option<Record> {
    if record.Some? && record.value.sid == i then record else None
  }

  function View(w: World, i: nat): Local
    requires i < |w.sessions|
  {
    var s := w.sessions[i];
    Local(
      s,
      Issued(w.grants, s.guard, i) && Issued(w.leases, s.lease, i) && HandleIssued(w.admitted, s.handle, i),
      Held(w.holder, s.guard),
      Held(w.lease, s.lease),
      BindingOf(w.adm, s.handle),
      LiveIn(w.adm, s.handle),
      w.adm.closedAt.Some?,
      Lookup(w.tokens, i),
      Lookup(w.handles, i),
      i in w.subscribed,
      i in w.killed,
      i in w.touched,
      i in w.torn,
      Targeted(w.resets, i),
      OwnRecord(w.record, i),
      w.lastWriter == Some(i))
  }

  predicate Opening(s: Session) {
    CanAbort(s.phase)
  }

  predicate Running(s: Session) {
    s.phase.Committed? || s.phase.GateUnlinked? || s.phase.Opened?
  }

  /** The unwind has done its first `n` steps. */
  predicate Unwound(s: Session, n: nat) {
    s.phase.Failed? || (s.phase.Unwinding? && s.phase.step >= n)
  }

  ghost predicate Shaped(s: Session) {
    && (s.phase.Starting? ==> s.handle.None? && s.guard.None? && s.lease.None? && !s.recorded && !s.promoted)
    && (s.phase.Admitted? ==> s.handle.Some? && s.guard.None? && s.lease.None? && !s.recorded)
    && (s.phase.Guarded? ==> s.handle.Some? && s.guard.Some? && s.lease.None? && !s.recorded)
    && (s.phase.Leased? ==> s.handle.Some? && s.guard.Some? && !s.recorded)
    && ((s.phase.Recorded? || s.phase.ReadyWritten?) ==> s.handle.Some? && s.guard.Some? && s.recorded)
    && ((s.phase.Committed? || s.phase.GateUnlinked?) ==> s.recovery)
    && (Opening(s) ==> !s.promoted)
    && (Running(s) ==> s.promoted)
    && (s.promoted ==> s.handle.Some? && s.guard.Some? && s.recorded)
    && (s.recorded ==> s.guard.Some?)
    && (s.phase.Unwinding? ==> s.handle.Some? && s.phase.step <= 5)
    && (s.promoted && Unwound(s, 0) ==> s.recovery)
  }

  ghost predicate OwnerInv(l: Local) {
    var o := l.s.owner;
    && (!l.s.phase.Opened? ==> o == Untouched)
    && (o.call.Some? ==>
          && o.call.value.step <= 5 && o.given > o.call.value.step
          && (o.call.value.step == 3 ==> o.given == 4))
    && (o.call.None? ==> o.given == 0 || o.given >= 6)
    && (o.given >= 2 ==> !l.leaseHeld)
    && (o.given >= 3 ==> !l.guardHeld && l.token.None?)
    && (o.given >= 4 ==> l.entry.None?)
    && (o.given >= 7 ==> !l.subscribed)
    && (o.erased ==> o.given >= 6 && l.record.None?)
  }

  /** A live binding the owner no longer answers for has been delivered to, or was let go of by force_release. */
  ghost predicate DeliveredInv(l: Local) {
    && (l.touched ==> l.targeted)
    && (l.targeted ==> Condemned(l))
    && (Running(l.s) && l.live && l.binding.Some? && l.binding.value.cancelled ==> l.targeted || l.s.owner.stranded)
    && (Running(l.s) && l.live && l.entry.None? ==> l.targeted || l.s.owner.stranded)
  }

  ghost predicate Released(l: Local) {
    !l.guardHeld && !l.leaseHeld && !l.live
  }

  /** Teardown was asked for: the handle is gone, or cancelled on a closed target. */
  ghost predicate Condemned(l: Local) {
    l.s.promoted && (l.live ==> l.closed && l.binding.Some? && l.binding.value.cancelled)
  }

  ghost predicate HoldsInv(l: Local) {
    && (l.s.guard.Some? && !Unwound(l.s, 5) && !l.touched && l.s.owner.given < 3 ==> l.guardHeld)
    && (l.s.lease.Some? && !Unwound(l.s, 4) && !l.touched && l.s.owner.given < 2 ==> l.leaseHeld)
    && (Running(l.s) && !l.guardHeld ==> !l.leaseHeld)
    && (Running(l.s) && (l.token.None? || l.record.None?) ==> !l.guardHeld)
    && (Unwound(l.s, 5) ==> !l.guardHeld)
    && (Unwound(l.s, 4) ==> !l.leaseHeld)
  }

  ghost predicate HandleInv(l: Local) {
    && (l.s.handle.Some? ==> l.binding.Some? && l.binding.value.op.TransportOpen?)
    && (l.s.handle.Some? && !l.s.promoted ==>
          if l.s.phase.Failed? then !l.live else l.live && l.binding.value.state.Pending?)
    && (l.s.promoted && l.live ==> l.binding.Some? && l.binding.value.state.Promoted?)
  }

  ghost predicate TablesInv(l: Local) {
    && (l.token.Some? ==> l.token == l.s.guard)
    && (l.entry.Some? ==> l.s.promoted && l.entry == l.s.handle)
    && (l.subscribed ==> l.s.promoted)
    && (l.s.recorded && Unwound(l.s, 1) ==> l.token.None? && l.entry.None?)
    && (Unwound(l.s, 3) ==> !l.subscribed)
    && ((l.s.phase.Recorded? || l.s.phase.ReadyWritten?) ==> l.token.Some?)
    && (Running(l.s) && !l.torn && l.s.owner.given < 7 ==> l.subscribed)
  }

  ghost predicate RecordInv(l: Local) {
    && (l.record.Some? ==> l.s.recorded && l.wroteLast)
    && ((l.s.phase.Recorded? || l.s.phase.ReadyWritten?) ==> l.wroteLast && l.record.Some?)
    && (Unwound(l.s, 2) && !l.s.undeleted ==> l.record.None?)
    && (l.s.phase.ReadyWritten? ==> l.record.value.pid == l.s.pid)
    && (Running(l.s) && !l.touched && l.s.owner.given < 3 ==> l.wroteLast)
    && (Running(l.s) && l.s.pid.None? ==> l.killed)
    && (Running(l.s) && l.wroteLast && !(l.killed && l.touched) && !l.s.owner.erased ==>
          l.record.Some? && l.record.value.pid == l.s.pid)
  }

  ghost predicate LocalInv(l: Local) {
    && Shaped(l.s)
    && l.named
    && HoldsInv(l)
    && HandleInv(l)
    && TablesInv(l)
    && RecordInv(l)
    && OwnerInv(l)
    && DeliveredInv(l)
    && (l.torn ==> l.touched && Released(l) && l.token.None? && l.entry.None? && !l.subscribed)
  }

  /** What any action may change for a session, its own or not. */
  ghost predicate Evolves(a: Local, b: Local) {
    && (a.s.handle.Some? ==> b.s.handle == a.s.handle)
    && (a.s.guard.Some? ==> b.s.guard == a.s.guard)
    && (a.s.promoted ==> b.s.promoted && b.s.pid == a.s.pid && b.s.lease == a.s.lease)
    && (Unwound(a.s, 0) ==> Unwound(b.s, 0))
    && (a.touched ==> b.touched)
    && (a.torn ==> b.torn)
    && (a.killed ==> b.killed)
    && (a.targeted ==> b.targeted)
    && (a.s.recorded ==> b.s.recorded)
    && a.s.owner.given <= b.s.owner.given
    && (a.s.owner.stranded ==> b.s.owner.stranded)
    && (a.s.promoted ==>
          && (b.guardHeld ==> a.guardHeld)
          && (b.leaseHeld ==> a.leaseHeld)
          && (b.live ==> a.live)
          && (b.token.Some? ==> a.token.Some?)
          && (b.entry.Some? ==> a.entry.Some?)
          && (b.subscribed ==> a.subscribed))
    && (a.binding.Some? ==>
          && b.binding.Some?
          && (a.binding.value.cancelled ==> b.binding.value.cancelled)
          && (a.binding.value.reaped ==> b.binding.value.reaped)
          && (b.live && a.closed && a.binding.value.cancelled ==> b.closed)
          && (a.binding.value.cancelled && !a.s.promoted ==> !b.s.promoted))
  }

  ghost predicate WorkerInv(t: Worker, l: Local) {
    && l.touched
    && (t.killPending ==> t.step == 0)
    && (t.step > 0 ==> !l.leaseHeld)
    && (t.step > 1 ==> !l.guardHeld)
    && (t.step > 2 ==> l.token.None?)
    && (t.step == 4 && l.live ==> l.binding.Some? && l.binding.value.reaped)
    && (t.step > 4 ==> !l.live)
    && (t.step > 5 ==> l.entry.None?)
    && (t.step > 7 ==> l.torn)
  }

  ghost predicate ResetInv(r: Reset, i: nat, l: Local) {
    && (i in r.targets ==> Condemned(l))
    && (i in r.admitted ==>
          || i in r.targets || l.torn || Unwound(l.s, 0) || l.s.owner.given >= 7
          || (!l.s.promoted && l.binding.Some? && l.binding.value.cancelled))
  }

  ghost predicate ActorsInv(w: World) {
    && (forall k | 0 <= k < |w.workers| ::
          w.workers[k].sid < |w.sessions| && WorkerInv(w.workers[k], View(w, w.workers[k].sid)))
    && (forall r | 0 <= r < |w.resets| ::
          && (forall i | i in w.resets[r].targets || i in w.resets[r].admitted :: i < |w.sessions|)
          && (forall i | 0 <= i < |w.sessions| :: ResetInv(w.resets[r], i, View(w, i))))
  }

  ghost predicate WorldInv(w: World) {
    && Inv(w.adm)
    && (forall i | 0 <= i < |w.sessions| :: LocalInv(View(w, i)))
    && ActorsInv(w)
  }
}
