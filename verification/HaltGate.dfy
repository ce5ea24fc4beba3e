/**
  Halting and resuming a debugged target against ssh-tier admission. The methods are the three
  writes of a halt, the two of a resume and the probe; the machine below interleaves those writes
  of any number of controllers, one at a time, with the record writes of opens and closes, with
  probes, admissions and every other gate event.
 */
module HaltGates {
  import opened Common
  import opened Admission
  import opened AdmissionServices
  import opened AdmissionRuns
  import opened Registries

  method HaltDebugTransport(session: TransportSession, admission: AdmissionService, registry: SessionRegistry)
    requires admission.Valid() && registry.Valid()
    modifies registry`records, admission`execEpoch, admission.BindingsOf(session.targetKey)
    ensures admission.Valid() && registry.Valid()
    ensures registry.records == old(registry.records)[session.targetKey := session.(executionState := Halted)]
    ensures var noted := Step(old(admission.View(session.targetKey)), NoteTransition(session.generation));
            admission.View(session.targetKey) == Step(noted, CancelSsh(session.generation, noted.epoch))
    ensures forall k | k != session.targetKey :: admission.View(k) == old(admission.View(k))
  {
    hide AdmissionService.Valid, AdmissionService.View, AdmissionService.Linked, Inv, Step;
    registry.WriteRecord(session.(executionState := Halted), true);
    var epoch := admission.NoteExecutionTransition(session.targetKey, session.generation);
    var _ := admission.CancelSshTier(session.targetKey, session.generation, epoch);
  }

  method ResumeDebugTransport(session: TransportSession, admission: AdmissionService, registry: SessionRegistry)
    requires admission.Valid() && registry.Valid()
    modifies registry`records, admission`execEpoch
    ensures admission.Valid() && registry.Valid()
    ensures registry.records == old(registry.records)[session.targetKey := session.(executionState := Executing)]
    ensures admission.View(session.targetKey) == Step(old(admission.View(session.targetKey)), NoteTransition(session.generation))
    ensures forall k | k != session.targetKey :: admission.View(k) == old(admission.View(k))
  {
    hide AdmissionService.Valid, AdmissionService.View, AdmissionService.Linked, Inv, Step;
    registry.WriteRecord(session.(executionState := Executing), true);
    var _ := admission.NoteExecutionTransition(session.targetKey, session.generation);
  }

  /** What the record says, as a probe reads it. */
  function Reading(record: Option<ExecutionState>): ExecutionState {
    if record.Some? then record.value else Unknown
  }

  /** What the last durable write says about the target, stamped with generation and epoch; no record reads as unknown. */
  function Proof(record: Option<ExecutionState>, generation: int, epoch: nat): ExecutionProof {
    ExecutionProof(generation, epoch, Some(Reading(record)))
  }

  method ProbeExecutionState(k: TargetKey, generation: int, admission: AdmissionService, registry: SessionRegistry)
    returns (proof: ExecutionProof)
    requires admission.Valid()
    ensures var record := if k in registry.records then Some(registry.records[k].executionState) else None;
            && proof == Proof(record, generation, admission.View(k).epoch)
            && proof.state == Some(if record.Some? then record.value else Unknown)
            && proof.generation == generation && proof.epoch == admission.View(k).epoch
  {
    var record := registry.ReadRecord(k);
    var state := if record.Some? then record.value.executionState else Unknown;
    var epoch := admission.CurrentExecutionEpoch(k);
    return ExecutionProof(generation, epoch, Some(state));
  }

  // ----- the interleaving machine of one target

  /** How far one controller has got with a halt or a resume. */
  datatype Controller = HaltWritten(generation: int) | HaltNoted(generation: int, epoch: nat) | ResumeWritten(generation: int)

  /**
    Where a word about the target comes from: the record stored by a halt, a resume or a break injection, by
    an open, or by a close; or a probe that read the record in an earlier epoch.
   */
  datatype Source = AController | AnOpen | AClose | AProbe

  /**
    `writer` stored the record on disk. `copies` are the states closes have read, each of which may yet be
    written back with CLOSING; `readings` are those of probes that have read the record and not the epoch.
    `stopped` holds from a halt's epoch bump to the next resume's record write. `said` has the writers whose
    EXECUTING record has been on disk in the present execution epoch, and AProbe if an EXECUTING reading was
    under way when the epoch began. `ever` says that an EXECUTING record has been on disk at all.
   */
  datatype Machine = Machine(
    adm: Gate,
    record: Option<ExecutionState>,
    writer: Source,
    controllers: map<nat, Controller>,
    copies: set<ExecutionState>,
    readings: map<nat, ExecutionState>,
    proofs: set<ExecutionProof>,
    stopped: bool,
    said: set<Source>,
    ever: bool)

  datatype Move =
    | WriteHalted(c: nat, generation: int)
    | NoteHalt(c: nat)
    | CancelHalt(c: nat)
    | WriteExecuting(c: nat, generation: int)
    | NoteResume(c: nat)
    | WriteUnknown
    | WriteOpen
    | ReadToClose
    | WriteClosing(state: ExecutionState)
    | DeleteRecord
    | ReadState(q: nat)
    | Stamp(q: nat, generation: int)
    | Probe(generation: int)
    | AdmitProbed(request: SshRequest)
    | Elsewhere(event: Event)

  /**
    Only controllers note transitions, and an ssh-tier caller has its proof from a probe. A probe reads the
    record and then the epoch; Probe is one that does both with nothing in between.
   */
  predicate Allowed(m: Machine, move: Move) {
    match move
    case WriteHalted(c, _) => c !in m.controllers
    case NoteHalt(c) => c in m.controllers && m.controllers[c].HaltWritten?
    case CancelHalt(c) => c in m.controllers && m.controllers[c].HaltNoted?
    case WriteExecuting(c, _) => c !in m.controllers
    case NoteResume(c) => c in m.controllers && m.controllers[c].ResumeWritten?
    case WriteClosing(state) => state in m.copies
    case Stamp(q, _) => q in m.readings
    case AdmitProbed(request) => request.proof.Some? ==> request.proof.value in m.proofs
    case Elsewhere(e) => !e.NoteTransition? && !e.AdmitSsh?
    case _ => true
  }

  function Stored(m: Machine, state: ExecutionState, w: Source): Machine {
    m.(record := Some(state), writer := w, said := if state.Executing? then m.said + {w} else m.said,
       ever := m.ever || state.Executing?)
  }

  /** The words that carry over into an epoch that begins now. */
  function Lingering(m: Machine): set<Source> {
    (if m.record == Some(Executing) then {m.writer} else {})
    + (if Executing in m.readings.Values then {AProbe} else {})
  }

  /** A transition noted at the current generation begins a new epoch, under the record that is on disk. */
  function Noted(m: Machine, generation: int): Machine {
    m.(adm := m.adm.NoteTransition(generation),
       said := if m.adm.GenerationCurrent(generation) then Lingering(m) else m.said)
  }

  function Moved(m: Machine, move: Move): Machine
    requires Allowed(m, move)
  {
    match move
    case WriteHalted(c, generation) =>
      Stored(m, Halted, AController).(controllers := m.controllers[c := HaltWritten(generation)])
    case NoteHalt(c) =>
      var generation := m.controllers[c].generation;
      var n := Noted(m, generation);
      n.(controllers := m.controllers[c := HaltNoted(generation, n.adm.epoch)],
         stopped := m.stopped || m.adm.GenerationCurrent(generation))
    case CancelHalt(c) =>
      m.(adm := m.adm.CancelSsh(m.controllers[c].generation, m.controllers[c].epoch), controllers := m.controllers - {c})
    case WriteExecuting(c, generation) =>
      Stored(m, Executing, AController).(controllers := m.controllers[c := ResumeWritten(generation)], stopped := false)
    case NoteResume(c) => Noted(m, m.controllers[c].generation).(controllers := m.controllers - {c})
    case WriteUnknown => Stored(m, Unknown, AController)
    case WriteOpen => Stored(m, Executing, AnOpen)
    case ReadToClose => m.(copies := m.copies + (if m.record.Some? then {m.record.value} else {}))
    case WriteClosing(state) => Stored(m, state, AClose)
    case DeleteRecord => m.(record := None)
    case ReadState(q) => m.(readings := m.readings[q := Reading(m.record)])
    case Stamp(q, generation) =>
      m.(proofs := m.proofs + {ExecutionProof(generation, m.adm.epoch, Some(m.readings[q]))}, readings := m.readings - {q})
    case Probe(generation) => m.(proofs := m.proofs + {Proof(m.record, generation, m.adm.epoch)})
    case AdmitProbed(request) => m.(adm := Step(m.adm, AdmitSsh(request)))
    case Elsewhere(e) => m.(adm := Step(m.adm, e))
  }

  /** A move that is not allowed does nothing. */
  function Turn(m: Machine, move: Move): Machine {
    if Allowed(m, move) then Moved(m, move) else m
  }

  function Play(m: Machine, moves: seq<Move>): Machine
    decreases |moves|
  {
    if moves == [] then m else Play(Turn(m, moves[0]), moves[1..])
  }

  const Start := Machine(Unpublished, None, AController, map[], {}, map[], {}, false, {}, false)

  ghost predicate Sound(m: Machine) {
    && Inv(m.adm)
    && (forall p | p in m.proofs :: p.epoch <= m.adm.epoch)
    && (m.record == Some(Executing) ==> m.writer in m.said && m.ever)
    && (forall q | q in m.readings && m.readings[q] == Executing :: m.said != {} && m.ever)
    && (forall p | p in m.proofs && p.state == Some(Executing) :: m.ever && (p.epoch == m.adm.epoch ==> m.said != {}))
  }

  lemma EpochMoves(g: Gate, e: Event)
    ensures g.epoch <= Step(g, e).epoch
    ensures !e.NoteTransition? ==> Step(g, e).epoch == g.epoch
  {
  }

  /** The gate event of a move, if it has one. */
  function GateEvent(m: Machine, move: Move): Option<Event>
    requires Allowed(m, move)
  {
    match move
    case NoteHalt(c) => Some(NoteTransition(m.controllers[c].generation))
    case CancelHalt(c) => Some(CancelSsh(m.controllers[c].generation, m.controllers[c].epoch))
    case NoteResume(c) => Some(NoteTransition(m.controllers[c].generation))
    case AdmitProbed(request) => Some(AdmitSsh(request))
    case Elsewhere(e) => Some(e)
    case _ => None
  }

  lemma MovedGate(m: Machine, move: Move)
    requires Allowed(m, move)
    ensures Moved(m, move).adm == if GateEvent(m, move).Some? then Step(m.adm, GateEvent(m, move).value) else m.adm
  {
  }

  lemma TurnKeepsSound(m: Machine, move: Move)
    requires Sound(m)
    ensures Sound(Turn(m, move))
  {
    if Allowed(m, move) {
      MovedGate(m, move);
      if GateEvent(m, move).Some? {
        StepKeepsInv(m.adm, GateEvent(m, move).value);
        EpochMoves(m.adm, GateEvent(m, move).value);
      }
      hide Inv, Step;
    }
  }

  lemma {:induction false} PlayKeepsSound(m: Machine, moves: seq<Move>)
    requires Sound(m)
    ensures Sound(Play(m, moves))
    decreases |moves|
  {
    hide Sound, Turn;
    if moves != [] {
      TurnKeepsSound(m, moves[0]);
      PlayKeepsSound(Turn(m, moves[0]), moves[1..]);
    }
  }

  /** The machine after a run from process start. */
  function Reached(moves: seq<Move>): Machine {
    Play(Start, moves)
  }

  lemma ReachedSound(moves: seq<Move>)
    ensures Sound(Reached(moves))
  {
    PlayKeepsSound(Start, moves);
  }

  // ----- what a stopped target admits

  ghost predicate Debugged(m: Machine) {
    m.adm.snapshot.Some? && m.adm.snapshot.value.state.Debugging?
  }

  /** The reasons a request to a DEBUGGING target is refused for whatever its proof says. */
  predicate Welcome(g: Gate, generation: int, facts: RequestFacts) {
    g.BindSnapshot(generation, false).Ok? && Gate.CheckSharedFacts(g.BindSnapshot(generation, false).value, facts).Ok?
  }

  /** With this proof, and nothing else against it, an EXECUTING state of the present epoch is what counts. */
  lemma ProofDecides(g: Gate, generation: int, facts: RequestFacts, p: ExecutionProof)
    requires g.snapshot.Some? && g.snapshot.value.state.Debugging?
    ensures g.AdmitSsh(SshRequest(generation, facts, Some(p))).Ok? <==>
              && Welcome(g, generation, facts) && p.generation == generation && p.epoch == g.epoch && p.state == Some(Executing)
  {
  }

  /**
    In every interleaving of any number of controllers, opens, closes and probes: as long as no EXECUTING
    record has been on disk since the last epoch bump, and no probe had read one and not yet the epoch when
    it came, every ssh-tier admission against a DEBUGGING target that rests on a probe, or on nothing, is refused.
   */
  lemma SilentTargetAdmitsNoSsh(moves: seq<Move>, request: SshRequest)
    requires var m := Reached(moves);
             Debugged(m) && m.said == {} && (request.proof.Some? ==> request.proof.value in m.proofs)
    ensures Reached(moves).adm.AdmitSsh(request).Err?
  {
    ReachedSound(moves);
    if request.proof.Some? {
      ProofDecides(Reached(moves).adm, request.generation, request.facts, request.proof.value);
    }
  }

  /** Controller 0 is the only one. */
  ghost predicate OneController(moves: seq<Move>) {
    forall move | move in moves ::
      move.WriteHalted? || move.NoteHalt? || move.CancelHalt? || move.WriteExecuting? || move.NoteResume? ==> move.c == 0
  }

  /** From a lone controller's HALTED write on, an EXECUTING record is not its own. */
  ghost predicate Alone(m: Machine) {
    && (forall c | c in m.controllers :: c == 0)
    && (m.stopped || (0 in m.controllers && m.controllers[0].HaltWritten?) ==>
          m.record == Some(Executing) ==> m.writer.AnOpen? || m.writer.AClose?)
    && (m.stopped ==> AController !in m.said)
  }

  lemma TurnKeepsAlone(m: Machine, move: Move)
    requires Alone(m) && OneController([move])
    ensures Alone(Turn(m, move))
  {
    assert move in [move];
    hide Step, Gate.NoteTransition, Gate.CancelSsh;
  }

  lemma {:induction false} PlayKeepsAlone(m: Machine, moves: seq<Move>)
    requires Alone(m) && OneController(moves)
    ensures Alone(Play(m, moves))
    decreases |moves|
  {
    hide Alone, Turn;
    if moves != [] {
      assert OneController([moves[0]]) && OneController(moves[1..]);
      TurnKeepsAlone(m, moves[0]);
      PlayKeepsAlone(Turn(m, moves[0]), moves[1..]);
    }
  }

  /**
    With one controller, from a halt's epoch bump to the next resume's record write, every ssh-tier
    admission against a DEBUGGING target that rests on a probe, or on nothing, is refused, unless the
    EXECUTING record of an open, or one a close has written back, has been on disk since the bump, or a
    probe that had read EXECUTING was still to read the epoch when the bump came.
   */
  lemma StoppedTargetAdmitsNoSsh(moves: seq<Move>, request: SshRequest)
    requires OneController(moves)
    requires var m := Reached(moves);
             && m.stopped && AnOpen !in m.said && AClose !in m.said && AProbe !in m.said
             && Debugged(m) && (request.proof.Some? ==> request.proof.value in m.proofs)
    ensures Reached(moves).adm.AdmitSsh(request).Err?
  {
    var m := Reached(moves);
    PlayKeepsAlone(Start, moves);
    forall w: Source
      ensures w !in m.said
    {
      match w
      case AController =>
      case AnOpen =>
      case AClose =>
      case AProbe =>
    }
    SilentTargetAdmitsNoSsh(moves, request);
  }

  // ----- the exact condition

  /** The run with a probe after each of its moves, the moves that are not allowed left out. */
  function Probed(m: Machine, moves: seq<Move>, generation: int): seq<Move>
    decreases |moves|
  {
    if moves == [] then []
    else if Allowed(m, moves[0]) then [moves[0], Probe(generation)] + Probed(Turn(m, moves[0]), moves[1..], generation)
    else Probed(m, moves[1..], generation)
  }

  /** n is m but for more proofs, among them an EXECUTING one if any could have been probed in this epoch. */
  ghost predicate Watched(m: Machine, n: Machine, generation: int) {
    && n == m.(proofs := n.proofs) && m.proofs <= n.proofs && m.readings == map[]
    && (m.said != {} ==> Proof(Some(Executing), generation, m.adm.epoch) in n.proofs)
  }

  lemma WatchedTurn(m: Machine, n: Machine, move: Move, generation: int)
    requires Sound(m) && Watched(m, n, generation) && Allowed(m, move) && !move.ReadState? && !move.Stamp?
    ensures Watched(Turn(m, move), Turn(Turn(n, move), Probe(generation)), generation)
  {
    MovedGate(m, move);
    MovedGate(n, move);
    if GateEvent(m, move).Some? {
      EpochMoves(m.adm, GateEvent(m, move).value);
    }
    hide Inv, Step;
  }

  lemma {:induction false} WatchedPlay(m: Machine, n: Machine, moves: seq<Move>, generation: int)
    requires Sound(m) && Watched(m, n, generation) && Prompt(moves)
    ensures Watched(Play(m, moves), Play(n, Probed(m, moves, generation)), generation)
    decreases |moves|
  {
    hide Sound, Turn, Watched;
    if moves != [] {
      var more := Probed(m, moves, generation);
      if Allowed(m, moves[0]) {
        var rest := Probed(Turn(m, moves[0]), moves[1..], generation);
        assert more[0] == moves[0] && more[1..][0] == Probe(generation) && more[1..][1..] == rest;
        TurnKeepsSound(m, moves[0]);
        WatchedTurn(m, n, moves[0], generation);
        WatchedPlay(Turn(m, moves[0]), Turn(Turn(n, moves[0]), Probe(generation)), moves[1..], generation);
      } else {
        Refused(m, moves[0]);
        WatchedPlay(m, n, moves[1..], generation);
      }
    }
  }

  lemma Refused(m: Machine, move: Move)
    requires !Allowed(m, move)
    ensures Turn(m, move) == m
  {
  }

  /** Every probe of the run reads record and epoch with nothing in between. */
  predicate Prompt(moves: seq<Move>) {
    forall move | move in moves :: !move.ReadState? && !move.Stamp?
  }

  lemma {:induction false} ProbedIsPrompt(m: Machine, moves: seq<Move>, generation: int)
    requires Prompt(moves)
    ensures Prompt(Probed(m, moves, generation))
    decreases |moves|
  {
    hide Moved, Allowed;
    if moves != [] {
      ProbedIsPrompt(m, moves[1..], generation);
      ProbedIsPrompt(Turn(m, moves[0]), moves[1..], generation);
    }
  }

  /** Another prompt run, which differs from the one to m in its probes alone, ends with a proof that gets the request granted. */
  ghost predicate PromptlyGranted(m: Machine, others: seq<Move>, p: ExecutionProof, generation: int, facts: RequestFacts) {
    var n := Reached(others);
    && Prompt(others) && n == m.(proofs := n.proofs) && p in n.proofs
    && n.adm.AdmitSsh(SshRequest(generation, facts, Some(p))).Ok?
  }

  /**
    Where every probe is prompt, probes placed well enough in a run get an ssh-tier request to a DEBUGGING
    target granted if and only if nothing else is against it and an EXECUTING record has been on disk since
    the last epoch bump. The probe of this very moment does if and only if the record says EXECUTING now.
   */
  lemma AdmitsExactlyWhenSaid(moves: seq<Move>, generation: int, facts: RequestFacts)
    requires Prompt(moves) && Debugged(Reached(moves))
    ensures var m := Reached(moves);
            && ((exists others: seq<Move>, p :: PromptlyGranted(m, others, p, generation, facts))
                <==> Welcome(m.adm, generation, facts) && m.said != {})
            && (m.adm.AdmitSsh(SshRequest(generation, facts, Some(Proof(m.record, generation, m.adm.epoch)))).Ok?
                <==> Welcome(m.adm, generation, facts) && m.record == Some(Executing))
  {
    hide Play, Inv, Step, Welcome, Gate.AdmitSsh, Probed, Prompt;
    var m := Reached(moves);
    ProofDecides(m.adm, generation, facts, Proof(m.record, generation, m.adm.epoch));
    forall others: seq<Move>, p | PromptlyGranted(m, others, p, generation, facts)
      ensures Welcome(m.adm, generation, facts) && m.said != {}
    {
      ReachedSound(others);
      ProofDecides(m.adm, generation, facts, p);
    }
    if Welcome(m.adm, generation, facts) && m.said != {} {
      var others := Probed(Start, moves, generation);
      var p := Proof(Some(Executing), generation, m.adm.epoch);
      StartIsWatched(generation);
      WatchedPlay(Start, Start, moves, generation);
      ProbedIsPrompt(Start, moves, generation);
      ProofDecides(m.adm, generation, facts, p);
      assert PromptlyGranted(m, others, p, generation, facts);
    }
  }

  lemma StartIsWatched(generation: int)
    ensures Sound(Start) && Watched(Start, Start, generation)
  {
  }

  // ----- slow probes

  /** The run with a probe of its own that reads the record after each move that finds EXECUTING on disk. */
  function Shadowed(m: Machine, moves: seq<Move>, q: nat): seq<Move>
    decreases |moves|
  {
    if moves == [] then []
    else if Allowed(m, moves[0]) then
      var u := Turn(m, moves[0]);
      [moves[0]] + (if u.record == Some(Executing) then [ReadState(q)] else []) + Shadowed(u, moves[1..], q)
    else Shadowed(m, moves[1..], q)
  }

  predicate Unused(moves: seq<Move>, q: nat) {
    forall move | move in moves :: (move.ReadState? || move.Stamp?) ==> move.q < q
  }

  /** n is m but for the reading of a probe q. */
  ghost predicate BarringProbe(m: Machine, n: Machine, q: nat) {
    && n == m.(readings := n.readings, said := n.said) && (forall r | r in m.readings :: r < q)
    && n.readings - {q} == m.readings
  }

  /** And q has read EXECUTING if it ever could. */
  ghost predicate Shadows(m: Machine, n: Machine, q: nat) {
    BarringProbe(m, n, q) && (m.ever ==> Lookup(n.readings, q) == Some(Executing))
  }

  lemma ProbesMoveTogether(m: Machine, n: Machine, move: Move, q: nat)
    requires BarringProbe(m, n, q) && Allowed(m, move) && (move.ReadState? || move.Stamp?) && move.q < q
    ensures BarringProbe(Turn(m, move), Turn(n, move), q)
    ensures Lookup(Turn(n, move).readings, q) == Lookup(n.readings, q) && Turn(m, move).ever == m.ever
  {
    assert move.q in m.readings ==> move.q in n.readings - {q};
    assert Turn(n, move).readings - {q} == Turn(m, move).readings;
  }

  lemma OthersMoveTogether(m: Machine, n: Machine, move: Move, q: nat)
    requires BarringProbe(m, n, q) && Allowed(m, move) && !move.ReadState? && !move.Stamp?
    ensures BarringProbe(Turn(m, move), Turn(n, move), q)
    ensures Turn(n, move).readings == n.readings
    ensures Turn(m, move).ever ==> m.ever || Turn(m, move).record == Some(Executing)
  {
    hide Step, Gate.NoteTransition, Gate.CancelSsh, Gate.GenerationCurrent, Lingering;
  }

  lemma ShadowsTurn(m: Machine, n: Machine, move: Move, q: nat)
    requires Shadows(m, n, q) && Allowed(m, move) && ((move.ReadState? || move.Stamp?) ==> move.q < q)
    ensures var u := Turn(n, move);
            Shadows(Turn(m, move), if Turn(m, move).record == Some(Executing) then Turn(u, ReadState(q)) else u, q)
  {
    hide Moved, Allowed;
    if move.ReadState? || move.Stamp? {
      ProbesMoveTogether(m, n, move, q);
    } else {
      OthersMoveTogether(m, n, move, q);
    }
    if Turn(m, move).record == Some(Executing) {
      ReadsExecuting(Turn(m, move), Turn(n, move), q);
    }
  }

  lemma ReadsExecuting(m: Machine, n: Machine, q: nat)
    requires BarringProbe(m, n, q) && m.record == Some(Executing)
    ensures Shadows(m, Turn(n, ReadState(q)), q)
  {
    assert Turn(n, ReadState(q)).readings - {q} == n.readings - {q};
  }

  lemma {:induction false} ShadowsPlay(m: Machine, n: Machine, moves: seq<Move>, q: nat)
    requires Shadows(m, n, q) && Unused(moves, q)
    ensures Shadows(Play(m, moves), Play(n, Shadowed(m, moves, q)), q)
    decreases |moves|
  {
    hide Turn, Shadows, Allowed;
    if moves != [] {
      var rest := Shadowed(Turn(m, moves[0]), moves[1..], q);
      if Allowed(m, moves[0]) {
        ShadowsTurn(m, n, moves[0], q);
        var u := Turn(n, moves[0]);
        if Turn(m, moves[0]).record == Some(Executing) {
          assert Shadowed(m, moves, q) == [moves[0]] + [ReadState(q)] + rest;
          assert Shadowed(m, moves, q)[1..] == [ReadState(q)] + rest && ([ReadState(q)] + rest)[1..] == rest;
          ShadowsPlay(Turn(m, moves[0]), Turn(u, ReadState(q)), moves[1..], q);
        } else {
          assert Shadowed(m, moves, q) == [moves[0]] + rest && Shadowed(m, moves, q)[1..] == rest;
          ShadowsPlay(Turn(m, moves[0]), u, moves[1..], q);
        }
      } else {
        Refused(m, moves[0]);
        ShadowsPlay(m, n, moves[1..], q);
      }
    }
  }

  /** A number above those of all the run's probes. */
  lemma {:induction false} ProbeAbove(moves: seq<Move>) returns (q: nat)
    ensures Unused(moves, q)
    decreases |moves|
  {
    if moves == [] {
      q := 0;
    } else {
      q := ProbeAbove(moves[1..]);
      if (moves[0].ReadState? || moves[0].Stamp?) && moves[0].q >= q {
        q := moves[0].q + 1;
      }
    }
  }

  /** Another run, which differs from the one to m in its probes alone, ends with a proof that gets the request granted. */
  ghost predicate Granted(m: Machine, others: seq<Move>, p: ExecutionProof, generation: int, facts: RequestFacts) {
    var n := Reached(others);
    && n == m.(proofs := n.proofs, readings := n.readings, said := n.said) && p in n.proofs
    && n.adm.AdmitSsh(SshRequest(generation, facts, Some(p))).Ok?
  }

  /**
    A probe that may pause between its two reads is fenced by no epoch: some placing of probes in a run gets
    an ssh-tier request to a DEBUGGING target granted if and only if nothing else is against it and an
    EXECUTING record has ever been on disk.
   */
  lemma SlowProbesAdmitExactlyWhenEver(moves: seq<Move>, generation: int, facts: RequestFacts)
    requires Debugged(Reached(moves))
    ensures var m := Reached(moves);
            (exists others: seq<Move>, p :: Granted(m, others, p, generation, facts))
            <==> Welcome(m.adm, generation, facts) && m.ever
  {
    hide Play, Inv, Step, Welcome, Gate.AdmitSsh, Shadowed, Turn;
    var m := Reached(moves);
    forall others: seq<Move>, p | Granted(m, others, p, generation, facts)
      ensures Welcome(m.adm, generation, facts) && m.ever
    {
      ReachedSound(others);
      ProofDecides(m.adm, generation, facts, p);
    }
    if Welcome(m.adm, generation, facts) && m.ever {
      var q := ProbeAbove(moves);
      assert Start.readings - {q} == map[];
      ShadowsPlay(Start, Start, moves, q);
      var shadow := Shadowed(Start, moves, q);
      PlaySplits(Start, shadow, [Stamp(q, generation)]);
      StampGrants(m, Reached(shadow), q, generation);
      var p := ExecutionProof(generation, m.adm.epoch, Some(Executing));
      ProofDecides(m.adm, generation, facts, p);
      assert Granted(m, shadow + [Stamp(q, generation)], p, generation, facts);
    }
  }

  lemma StampGrants(m: Machine, n: Machine, q: nat, generation: int)
    requires Shadows(m, n, q) && m.ever
    ensures var u := Play(n, [Stamp(q, generation)]);
            u == m.(proofs := u.proofs, readings := u.readings, said := u.said)
            && ExecutionProof(generation, m.adm.epoch, Some(Executing)) in u.proofs
  {
    assert [Stamp(q, generation)][1..] == [];
  }

  // ----- runs that admit inside the window

  const Welcomed := RequestFacts(true, true, true, true, true, true)

  /** The last three moves of a run. */
  lemma PlayThree(m: Machine, a: Move, b: Move, c: Move)
    ensures Play(m, [a, b, c]) == Turn(Turn(Turn(m, a), b), c)
  {
    hide Turn;
    var r := [a, b, c];
    assert r[1..] == [b, c] && r[1..][1..] == [c] && r[1..][1..][1..] == [];
    assert Play(Turn(Turn(m, a), b), [c]) == Turn(Turn(Turn(m, a), b), c);
  }

  lemma {:induction false} PlaySplits(m: Machine, first: seq<Move>, second: seq<Move>)
    ensures Play(m, first + second) == Play(Play(m, first), second)
    decreases |first|
  {
    hide Turn;
    if first == [] {
      assert first + second == second;
    } else {
      assert (first + second)[1..] == first[1..] + second;
      PlaySplits(Turn(m, first[0]), first[1..], second);
    }
  }

  lemma PlaySix(a: Move, b: Move, c: Move, d: Move, e: Move, f: Move)
    ensures Reached([a, b, c] + [d, e, f]) == Turn(Turn(Turn(Turn(Turn(Turn(Start, a), b), c), d), e), f)
  {
    hide Turn;
    PlaySplits(Start, [a, b, c], [d, e, f]);
    PlayThree(Start, a, b, c);
    PlayThree(Play(Start, [a, b, c]), d, e, f);
  }

  /** A probe taken in the present state is at hand, and on it an ssh-tier request is granted. */
  ghost predicate Readmits(m: Machine) {
    var p := Proof(m.record, 1, m.adm.epoch);
    p in m.proofs && m.adm.AdmitSsh(SshRequest(1, Welcomed, Some(p))).Ok?
  }

  const Published := Unpublished.(snapshot := Some(TargetSnapshot(1, Debugging)))

  /** A free controller's record write and bump. */
  lemma Halts(a: Machine)
    requires a.adm == Published && a.controllers == map[]
    ensures Turn(Turn(a, WriteHalted(0, 1)), NoteHalt(0))
         == a.(adm := Published.(epoch := 1), record := Some(Halted), writer := AController,
               controllers := map[0 := HaltNoted(1, 1)], stopped := true,
               said := if Executing in a.readings.Values then {AProbe} else {})
  {
    var b := Turn(a, WriteHalted(0, 1));
    assert b.controllers == map[0 := HaltWritten(1)] && b.record == Some(Halted) && b.readings == a.readings;
    assert Lingering(b) == if Executing in a.readings.Values then {AProbe} else {};
  }

  lemma Reads(m: Machine)
    requires m.record.Some?
    ensures Turn(m, ReadToClose) == m.(copies := m.copies + {m.record.value})
    ensures Turn(m, ReadState(0)) == m.(readings := m.readings[0 := m.record.value])
  {
  }

  lemma OpenStores()
    ensures var m := Turn(Turn(Start, Elsewhere(Publish(TargetSnapshot(1, Debugging)))), WriteOpen);
            m == Start.(adm := Published, record := Some(Executing), writer := AnOpen, said := {AnOpen}, ever := true)
  {
  }

  /** One controller has halted the target and is done; then an open stores its record. */
  lemma OpenReadmitsAStoppedTarget()
    ensures exists moves: seq<Move> ::
              var m := Reached(moves);
              && OneController(moves) && m.stopped && m.controllers == map[] && m.said == {AnOpen} && Debugged(m)
              && Readmits(m)
  {
    var moves := [Elsewhere(Publish(TargetSnapshot(1, Debugging))), WriteHalted(0, 1), NoteHalt(0)]
                 + [CancelHalt(0), WriteOpen, Probe(1)];
    PlaySix(moves[0], moves[1], moves[2], moves[3], moves[4], moves[5]);
    var a := Turn(Turn(Turn(Start, moves[0]), moves[1]), moves[2]);
    var z := Turn(Start, moves[0]);
    assert z == Start.(adm := Published);
    Halts(z);
    assert Executing !in z.readings.Values;
    var b := Turn(a, moves[3]);
    assert b.adm == Published.(epoch := 1) && b.controllers == map[];
    var m := Reached(moves);
    assert m.adm == b.adm && m.record == Some(Executing) && m.said == {AnOpen};
    ProofDecides(m.adm, 1, Welcomed, Proof(m.record, 1, 1));
  }

  /** A close has read the record before one controller halts the target, and its CLOSING write puts EXECUTING back. */
  lemma CloseReadmitsAStoppedTarget()
    ensures exists moves: seq<Move> ::
              var m := Reached(moves);
              OneController(moves) && m.stopped && m.said == {AClose} && Debugged(m) && Readmits(Turn(m, Probe(1)))
  {
    hide Moved, Allowed;
    var moves := [Elsewhere(Publish(TargetSnapshot(1, Debugging))), WriteOpen, ReadToClose]
                 + [WriteHalted(0, 1), NoteHalt(0), WriteClosing(Executing)];
    PlaySix(moves[0], moves[1], moves[2], moves[3], moves[4], moves[5]);
    var a := Turn(Turn(Turn(Start, moves[0]), moves[1]), moves[2]);
    OpenStores();
    Reads(Turn(Turn(Start, moves[0]), moves[1]));
    assert a.copies == {Executing} && a.readings == map[] && Executing !in a.readings.Values;
    Halts(a);
    var b := Turn(Turn(a, moves[3]), moves[4]);
    WritesBack(b);
  }

  /** A probe has read EXECUTING before one controller halts the target, and reads the epoch after the bump. */
  lemma SlowProbeReadmitsAStoppedTarget()
    ensures exists moves: seq<Move> ::
              var m := Reached(moves); var p := ExecutionProof(1, 1, Some(Executing));
              && OneController(moves) && m.stopped && m.record == Some(Halted) && m.said == {AProbe} && Debugged(m)
              && p in m.proofs && m.adm.AdmitSsh(SshRequest(1, Welcomed, Some(p))).Ok?
  {
    hide Moved, Allowed;
    var moves := [Elsewhere(Publish(TargetSnapshot(1, Debugging))), WriteOpen, ReadState(0)]
                 + [WriteHalted(0, 1), NoteHalt(0), Stamp(0, 1)];
    PlaySix(moves[0], moves[1], moves[2], moves[3], moves[4], moves[5]);
    var a := Turn(Turn(Turn(Start, moves[0]), moves[1]), moves[2]);
    OpenStores();
    Reads(Turn(Turn(Start, moves[0]), moves[1]));
    assert a.readings == map[0 := Executing] && 0 in a.readings && Executing in a.readings.Values;
    Halts(a);
    StampsLate(Turn(Turn(a, moves[3]), moves[4]));
  }

  lemma WritesBack(b: Machine)
    requires b.adm == Published.(epoch := 1) && Executing in b.copies && b.said == {}
    ensures var m := Turn(b, WriteClosing(Executing));
            m.said == {AClose} && m.stopped == b.stopped && Debugged(m) && Readmits(Turn(m, Probe(1)))
  {
    var m := Turn(b, WriteClosing(Executing));
    assert m.adm == b.adm && m.record == Some(Executing);
    ProofDecides(m.adm, 1, Welcomed, Proof(m.record, 1, 1));
  }

  lemma StampsLate(b: Machine)
    requires b.adm == Published.(epoch := 1) && Lookup(b.readings, 0) == Some(Executing)
    ensures var m := Turn(b, Stamp(0, 1)); var p := ExecutionProof(1, 1, Some(Executing));
            m == b.(readings := m.readings, proofs := m.proofs) && p in m.proofs
            && m.adm.AdmitSsh(SshRequest(1, Welcomed, Some(p))).Ok?
  {
    ProofDecides(b.adm, 1, Welcomed, ExecutionProof(1, 1, Some(Executing)));
  }

  /** Two controllers: one writes HALTED, the other resumes, and the first one's bump finds EXECUTING on disk. */
  lemma SecondControllerReadmitsAStoppedTarget()
    ensures exists moves: seq<Move> ::
              var m := Reached(moves);
              m.stopped && m.said == {AController} && Debugged(m) && Readmits(m)
  {
    var moves := [Elsewhere(Publish(TargetSnapshot(1, Debugging))), WriteHalted(0, 1), WriteExecuting(1, 1)]
                 + [NoteHalt(0), Probe(1), CancelHalt(0)];
    PlaySix(moves[0], moves[1], moves[2], moves[3], moves[4], moves[5]);
    var a := Turn(Turn(Turn(Start, moves[0]), moves[1]), moves[2]);
    assert a == Start.(adm := Published, record := Some(Executing), said := {AController}, ever := true,
                       controllers := map[0 := HaltWritten(1), 1 := ResumeWritten(1)]);
    var b := Turn(a, moves[3]);
    assert b.adm == Published.(epoch := 1) && b.stopped && b.said == {AController} && b.controllers[0] == HaltNoted(1, 1);
    var m := Reached(moves);
    assert m.adm == Published.(epoch := 1).CancelSsh(1, 1);
    assert m.adm == Published.(epoch := 1);
    ProofDecides(m.adm, 1, Welcomed, Proof(m.record, 1, 1));
  }

  // ----- operations that span a halt

  lemma {:induction false} PlayEvolves(g: Gate, m: Machine, moves: seq<Move>)
    requires Inv(g) && Sound(m) && Evolves(g, m.adm)
    ensures Evolves(g, Play(m, moves).adm) && Sound(Play(m, moves))
    decreases |moves|
  {
    hide Inv, Evolves, Step;
    if moves != [] {
      TurnKeepsSound(m, moves[0]);
      if Allowed(m, moves[0]) {
        MovedGate(m, moves[0]);
        if GateEvent(m, moves[0]).Some? {
          StepEvolves(g, m.adm, GateEvent(m, moves[0]).value);
        }
      }
      PlayEvolves(g, Turn(m, moves[0]), moves[1..]);
    }
  }

  lemma EvolvesFromItself(g: Gate)
    requires Inv(g)
    ensures Evolves(g, g)
  {
  }

  /**
    The halt and resume writes straddle a window in which a stale or early EXECUTING proof still
    admits. Whatever got in that way: an ssh-tier handle that is live when the controller's bump
    lands, of a halt or of a resume, never completes, however the run goes on.
   */
  lemma NothingCompletesAcrossABump(before: seq<Move>, bump: Move, after: seq<Move>, h: nat)
    requires var m := Reached(before);
             && (bump.NoteHalt? || bump.NoteResume?) && Allowed(m, bump)
             && m.adm.GenerationCurrent(m.controllers[bump.c].generation)
             && h in m.adm.live && m.adm.Known(h) && m.adm.issued[h].op.SshTier?
    ensures var t := Play(Turn(Reached(before), bump), after).adm;
            h < |t.issued| && !t.issued[h].state.Completed?
  {
    var m := Reached(before);
    ReachedSound(before);
    TurnKeepsSound(m, bump);
    var n := Turn(m, bump);
    EvolvesFromItself(n.adm);
    PlayEvolves(n.adm, n, after);
    assert Bounded(m.adm, m.adm.issued[h]);
    assert HandleEvolves(n.adm, Play(n, after).adm, h);
  }

  /** The window before the bump is real too: the record already says HALTED and an older proof admits ssh work. */
  lemma StaleProofAdmitsBeforeTheBump()
    ensures exists moves: seq<Move>, request: SshRequest ::
              var m := Reached(moves);
              && OneController(moves) && m.record == Some(Halted) && m.controllers == map[0 := HaltWritten(1)] && !m.stopped
              && request.proof.Some? && request.proof.value in m.proofs
              && m.adm.snapshot == Some(TargetSnapshot(1, Debugging)) && m.adm.AdmitSsh(request).Ok?
  {
    var moves := [Elsewhere(Publish(TargetSnapshot(1, Debugging))), WriteExecuting(0, 1), NoteResume(0)]
                 + [Probe(1), WriteHalted(0, 1), Probe(1)];
    PlaySix(moves[0], moves[1], moves[2], moves[3], moves[4], moves[5]);
    var a := Turn(Turn(Turn(Start, moves[0]), moves[1]), moves[2]);
    assert a.controllers == map[];
    assert a == Start.(adm := Published.(epoch := 1), record := Some(Executing), said := {AController}, ever := true);
    var m := Reached(moves);
    var p := Proof(Some(Executing), 1, 1);
    assert m.adm == Published.(epoch := 1) && p in m.proofs && m.controllers == map[0 := HaltWritten(1)];
    var request := SshRequest(1, Welcomed, Some(p));
    ProofDecides(m.adm, 1, Welcomed, p);
    assert request.proof.value in m.proofs;
  }
}
