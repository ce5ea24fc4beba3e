/**
  The durable ownership store: one record and one recovery tombstone file per target key,
  replaced or removed atomically, and the crash reconciliation that reads them back.
 */
module Registries {
  import opened Common
  import opened Admission
  import opened AdmissionServices

  datatype RecordState = Opening | Ready | Closing

  datatype TransportSession = TransportSession(
    sid: nat,
    targetKey: TargetKey,
    generation: int,
    recordState: RecordState,
    leaseToken: Option<nat>,
    executionState: ExecutionState,
    backendPid: Option<nat>)
  {
    /** Closed or found in this state, the target's kernel may still be stopped. */
    predicate Parked() {
      executionState.Halted? || executionState.Unknown?
    }
  }

  datatype Reason = ClosedWhileHalted | FoundInState(state: ExecutionState) | LegacySession

  datatype Tombstone = Malformed | Marker(generation: int, reason: Reason)

  /** What survives a crash. */
  datatype Durable = Durable(records: map<TargetKey, TransportSession>, tombs: map<TargetKey, Tombstone>) {
    ghost predicate Filed() {
      forall k | k in records :: records[k].targetKey == k
    }
  }

  datatype OrphanReap = OrphanReap(record: TransportSession, closeAdmissionRequired: bool)

  // ----- what reconciling does to the files of some of the recorded keys

  predicate Gated(d: Durable, done: set<TargetKey>, k: TargetKey) {
    k in done && k in d.records && d.records[k].Parked()
  }

  function MarkerOf(s: TransportSession): Tombstone {
    Marker(s.generation, FoundInState(s.executionState))
  }

  function Reconciling(d: Durable, done: set<TargetKey>): Durable {
    Durable(d.records - done,
            map k | k in d.tombs.Keys + done && (k in d.tombs || Gated(d, done, k)) ::
              if Gated(d, done, k) then MarkerOf(d.records[k]) else d.tombs[k])
  }

  /** The files after the first durable write for one record. */
  function Tombstoned(d: Durable, s: TransportSession): Durable {
    if s.Parked() then d.(tombs := d.tombs[s.targetKey := MarkerOf(s)]) else d
  }

  /** The files an uninterrupted reconciliation leaves. */
  function Reconciled(d: Durable): Durable {
    Reconciling(d, d.records.Keys)
  }

  /** What it makes of the admission gate of key k: the tombstone first, then the record. */
  function Reasserted(g: Gate, tomb: Option<Tombstone>): Gate {
    if tomb.Some? && tomb.value.Marker? then Step(g, MarkRecovery(tomb.value.generation)) else g
  }

  function Reaped(g: Gate, record: TransportSession, killed: bool): Gate {
    var marked := if record.Parked() then Step(g, MarkRecovery(record.generation)) else g;
    if killed then Step(marked, Close(record.generation)) else marked
  }

  predicate Kills(stop: TransportSession -> bool, record: TransportSession) {
    record.backendPid.Some? && stop(record)
  }

  class SessionRegistry {
    var records: map<TargetKey, TransportSession>
    var tombs: map<TargetKey, Tombstone>

    function Files(): Durable
      reads this
    {
      Durable(records, tombs)
    }

    ghost predicate Valid()
      reads this
    {
      Files().Filed()
    }

    constructor (found: Durable)
      requires found.Filed()
      ensures Valid() && Files() == found
    {
      records, tombs := found.records, found.tombs;
    }

    /** `ok` is whether the storage takes the write; a refused one leaves the old file. */
    method WriteRecord(s: TransportSession, ok: bool)
      requires Valid()
      modifies `records
      ensures Valid()
      ensures records == if ok then old(records)[s.targetKey := s] else old(records)
    {
      if ok {
        records := records[s.targetKey := s];
      }
    }

    method ReadRecord(k: TargetKey) returns (r: Option<TransportSession>)
      ensures r == Lookup(records, k)
    {
      return if k in records then Some(records[k]) else None;
    }

    /** With an expected session, only that session's own record is unlinked. */
    method DeleteRecord(k: TargetKey, expected: Option<nat>, ok: bool) returns (failed: bool)
      requires Valid()
      modifies `records
      ensures Valid()
      ensures var mine := k in old(records) && (expected.None? || old(records)[k].sid == expected.value);
              && records == (if mine && ok then old(records) - {k} else old(records))
              && (failed <==> !ok && (mine || expected.None?))
    {
      if expected.Some? {
        if k !in records || records[k].sid != expected.value {
          return false;
        }
      }
      if ok {
        records := records - {k};
      }
      return !ok;
    }

    method ListRecords() returns (rs: seq<TransportSession>)
      requires Valid()
      ensures forall s :: s in rs <==> s.targetKey in records && records[s.targetKey] == s
      ensures forall i, j :: 0 <= i < j < |rs| ==> rs[i].targetKey != rs[j].targetKey
    {
      rs := [];
      var pending := records.Keys;
      while pending != {}
        invariant pending <= records.Keys
        invariant forall s :: s in rs <==> s.targetKey in records && s.targetKey !in pending && records[s.targetKey] == s
        invariant forall i | 0 <= i < |rs| :: rs[i] in rs
        invariant forall i, j :: 0 <= i < j < |rs| ==> rs[i].targetKey != rs[j].targetKey
        decreases |pending|
      {
        var k :| k in pending;
        pending := pending - {k};
        rs := rs + [records[k]];
      }
    }

    method WriteTombstone(k: TargetKey, generation: int, reason: Reason, ok: bool)
      modifies `tombs
      ensures tombs == if ok then old(tombs)[k := Marker(generation, reason)] else old(tombs)
    {
      if ok {
        tombs := tombs[k := Marker(generation, reason)];
      }
    }

    /** A malformed tombstone reads as none. */
    method ReadTombstone(k: TargetKey) returns (t: Option<Tombstone>)
      ensures t == if k in tombs && tombs[k].Marker? then Some(tombs[k]) else None
    {
      return if k in tombs && tombs[k].Marker? then Some(tombs[k]) else None;
    }

    method ClearTombstone(k: TargetKey, expected: int, ok: bool) returns (failed: bool)
      modifies `tombs
      ensures var mine := k in old(tombs) && old(tombs)[k].Marker? && old(tombs)[k].generation == expected;
              && tombs == (if mine && ok then old(tombs) - {k} else old(tombs))
              && (failed <==> mine && !ok)
    {
      var existing := ReadTombstone(k);
      if existing.None? || existing.value.generation != expected {
        return false;
      }
      if ok {
        tombs := tombs - {k};
      }
      return !ok;
    }

    /** Step 1 of reconciliation: every readable tombstone goes back into the admission cache. */
    method ReassertTombstones(admission: AdmissionService)
      requires admission.Valid()
      modifies admission`recoveryRequired
      ensures admission.Valid()
      ensures forall k :: admission.View(k) == Reasserted(old(admission.View(k)), Lookup(tombs, k))
    {
      hide AdmissionService.Linked, AdmissionService.View, Inv, Step;
      var pending := tombs.Keys;
      while pending != {}
        invariant pending <= tombs.Keys && admission.Valid()
        invariant forall k :: admission.View(k) ==
                    if k in pending then old(admission.View(k)) else Reasserted(old(admission.View(k)), Lookup(tombs, k))
        decreases |pending|
      {
        var k :| k in pending;
        pending := pending - {k};
        if tombs[k].Marker? {
          admission.MarkRecoveryRequired(k, tombs[k].generation);
        }
      }
    }

    /** Step 2 for one record. `marked` is what a crash between its two durable writes would leave. */
    method ReapOrphan(record: TransportSession, admission: AdmissionService, stop: TransportSession -> bool)
      returns (reap: OrphanReap, ghost marked: Durable)
      requires Valid() && admission.Valid()
      requires record.targetKey in records && records[record.targetKey] == record
      modifies this, admission`recoveryRequired, admission`closedAt, admission.BindingsOf(record.targetKey)
      ensures Valid() && admission.Valid()
      ensures reap == OrphanReap(record, Kills(stop, record))
      ensures marked == Tombstoned(old(Files()), record) && Files() == marked.(records := marked.records - {record.targetKey})
      ensures admission.View(record.targetKey) == Reaped(old(admission.View(record.targetKey)), record, Kills(stop, record))
      ensures forall other | other != record.targetKey :: admission.View(other) == old(admission.View(other))
    {
      hide AdmissionService.Valid, AdmissionService.View, AdmissionService.Linked, Inv, Step;
      var k := record.targetKey;
      var killed := false;
      if record.backendPid.Some? {
        killed := stop(record);
      }
      if record.executionState.Halted? || record.executionState.Unknown? {
        WriteTombstone(k, record.generation, FoundInState(record.executionState), true);
        admission.MarkRecoveryRequired(k, record.generation);
      }
      reap := OrphanReap(record, killed);
      if killed {
        var _ := admission.CloseAdmission(k, record.generation);
      }
      marked := Files();
      var _ := DeleteRecord(k, Some(record.sid), true);
    }

    /** The same within a reconciliation of `d` that has reaped the records of `done` by the writes `ws`. */
    method ReapNext(record: TransportSession, admission: AdmissionService, stop: TransportSession -> bool,
                    ghost d: Durable, ghost done: set<TargetKey>, ghost ws: seq<Write>, ghost trail: seq<Durable>)
      returns (reap: OrphanReap, ghost more: seq<Durable>)
      requires Valid() && admission.Valid()
      requires Files() == Reconciling(d, done) && done <= d.records.Keys && Trail(d, ws, trail, Files())
      requires d.Filed() && record.targetKey !in done && Lookup(d.records, record.targetKey) == Some(record)
      modifies this, admission`recoveryRequired, admission`closedAt, admission.BindingsOf(record.targetKey)
      ensures Valid() && admission.Valid()
      ensures reap == OrphanReap(record, Kills(stop, record))
      ensures Trail(d, ws + WritesFor(record), trail + more, Files())
      ensures Files() == Reconciling(d, done + {record.targetKey})
      ensures admission.View(record.targetKey) == Reaped(old(admission.View(record.targetKey)), record, Kills(stop, record))
      ensures forall other | other != record.targetKey :: admission.View(other) == old(admission.View(other))
    {
      hide AdmissionService.Valid, AdmissionService.View, AdmissionService.Linked, Inv, Step, Reaped, Trail, WritesFor;
      ReconcilingOne(d, done, record.targetKey);
      TrailGrows(d, ws, trail, Files(), record);
      hide Reconciling, Reconciled, Tombstoned, TransportSession.Parked;
      ghost var marked;
      reap, marked := ReapOrphan(record, admission, stop);
      more := if record.Parked() then [marked, Files()] else [Files()];
    }

    /**
      Crash reconciliation. `stop` tells which backends were alive and got killed, `raises` for which
      reaps the callback failed after closing admission. Whatever they say, the files end reconciled.
      `writes` are the durable writes it made, in order, and `trail` the files after each of them: a
      crash at any of them followed by a rerun ends the same.
     */
    method Reconcile(admission: AdmissionService, stop: TransportSession -> bool, raises: TransportSession -> bool)
      returns (reaped: seq<OrphanReap>, failures: seq<TransportSession>, ghost writes: seq<Write>, ghost trail: seq<Durable>)
      requires Valid() && admission.Valid()
      modifies this, admission`recoveryRequired, admission`closedAt, admission.handles
      ensures Valid() && admission.Valid()
      ensures Files() == Reconciled(old(Files()))
      ensures Trail(old(Files()), writes, trail, Files())
      ensures forall d | d in trail :: Reconciled(d) == Files()
      ensures Reports(old(Files()), stop, raises, reaped, failures)
      ensures forall k :: admission.View(k) == Recovered(old(admission.View(k)), old(Files()), stop, k)
    {
      hide AdmissionService.Linked, AdmissionService.View, Inv, Step, Reconciling, Reconciled, Reaped, Reasserted, WritesFor;
      hide Keys, Reporting, Reports, Trail;
      ghost var d := Files();
      ReassertTombstones(admission);
      var rs := ListRecords();
      label Listed:
      reaped, failures, writes, trail := [], [], [], [];
      ReportingNone(rs, stop, raises);
      ReconcilingNone(d);
      KeysOfAll(rs, d.records);
      TrailStarts(d);
      for i := 0 to |rs|
        invariant Valid() && admission.Valid() && admission.handles == old(admission.handles)
        invariant Keys(rs[..i]) <= d.records.Keys && Files() == Reconciling(d, Keys(rs[..i]))
        invariant Trail(d, writes, trail, Files())
        invariant forall k :: admission.View(k) ==
                    if k in Keys(rs[..i]) then Reaped(old@Listed(admission.View(k)), d.records[k], Kills(stop, d.records[k]))
                    else old@Listed(admission.View(k))
        invariant Reporting(rs[..i], stop, raises, reaped, failures)
      {
        var record := rs[i];
        KeysGrow(rs, i);
        admission.Linking(record.targetKey);
        var reap; ghost var more;
        reap, more := ReapNext(record, admission, stop, d, Keys(rs[..i]), writes, trail);
        ReportingOne(rs, i, stop, raises, reaped, failures);
        reaped := reaped + [reap];
        failures := if raises(record) then failures + [record] else failures;
        writes, trail := writes + WritesFor(record), trail + more;
      }
      TrailReruns(d, writes, trail, Files());
      assert rs[..|rs|] == rs;
      ReportingAll(d, rs, stop, raises, reaped, failures);
    }
  }

  ghost function Keys(rs: seq<TransportSession>): set<TargetKey> {
    set s | s in rs :: s.targetKey
  }

  /** What a whole reconciliation makes of the gate of key k. */
  ghost function Recovered(g: Gate, d: Durable, stop: TransportSession -> bool, k: TargetKey): Gate {
    var marked := Reasserted(g, Lookup(d.tombs, k));
    if k in d.records then Reaped(marked, d.records[k], Kills(stop, d.records[k])) else marked
  }

  /** The report so far: every record of rs reaped, in order, and those whose callback raised. */
  ghost predicate Reporting(rs: seq<TransportSession>, stop: TransportSession -> bool, raises: TransportSession -> bool,
                            reaped: seq<OrphanReap>, failures: seq<TransportSession>)
  {
    && |reaped| == |rs|
    && (forall j | 0 <= j < |rs| :: reaped[j] == OrphanReap(rs[j], Kills(stop, rs[j])))
    && (forall s :: s in failures <==> s in rs && raises(s))
  }

  /** One reap for each record on disk, closing admission exactly for the live backends; one failure for each raise. */
  ghost predicate Reports(d: Durable, stop: TransportSession -> bool, raises: TransportSession -> bool,
                          reaped: seq<OrphanReap>, failures: seq<TransportSession>)
  {
    && (forall o :: o in reaped <==>
          && o.record.targetKey in d.records && d.records[o.record.targetKey] == o.record
          && o.closeAdmissionRequired == (o.record.backendPid.Some? && stop(o.record)))
    && (forall i, j :: 0 <= i < j < |reaped| ==> reaped[i].record.targetKey != reaped[j].record.targetKey)
    && (forall s :: s in failures <==> s.targetKey in d.records && d.records[s.targetKey] == s && raises(s))
  }

  lemma ReportingNone(rs: seq<TransportSession>, stop: TransportSession -> bool, raises: TransportSession -> bool)
    ensures Reporting(rs[..0], stop, raises, [], [])
  {
  }

  lemma KeysOfAll(rs: seq<TransportSession>, records: map<TargetKey, TransportSession>)
    requires forall s :: s in rs <==> s.targetKey in records && records[s.targetKey] == s
    requires forall k | k in records :: records[k].targetKey == k
    ensures Keys(rs[..0]) == {} && Keys(rs) == records.Keys
  {
    forall k | k in records
      ensures k in Keys(rs)
    {
      assert records[k] in rs;
    }
  }

  lemma ReportingOne(rs: seq<TransportSession>, i: nat, stop: TransportSession -> bool, raises: TransportSession -> bool,
                     reaped: seq<OrphanReap>, failures: seq<TransportSession>)
    requires i < |rs| && Reporting(rs[..i], stop, raises, reaped, failures)
    ensures Reporting(rs[..i + 1], stop, raises, reaped + [OrphanReap(rs[i], Kills(stop, rs[i]))],
                      if raises(rs[i]) then failures + [rs[i]] else failures)
  {
    assert rs[..i + 1] == rs[..i] + [rs[i]];
  }

  lemma ReportingAll(d: Durable, rs: seq<TransportSession>, stop: TransportSession -> bool,
                     raises: TransportSession -> bool, reaped: seq<OrphanReap>, failures: seq<TransportSession>)
    requires Reporting(rs, stop, raises, reaped, failures)
    requires forall s :: s in rs <==> s.targetKey in d.records && d.records[s.targetKey] == s
    requires forall i, j :: 0 <= i < j < |rs| ==> rs[i].targetKey != rs[j].targetKey
    ensures Reports(d, stop, raises, reaped, failures)
  {
    forall o: OrphanReap | o.record in rs && o.closeAdmissionRequired == Kills(stop, o.record)
      ensures o in reaped
    {
      var j :| 0 <= j < |rs| && rs[j] == o.record;
      assert reaped[j] == o;
    }
  }

  lemma ReconcilingNone(d: Durable)
    ensures Reconciling(d, {}) == d && Reconciling(d, d.records.Keys) == Reconciled(d)
  {
  }

  /** One more key: the files after its tombstone write and after its unlink. */
  lemma ReconcilingOne(d: Durable, done: set<TargetKey>, k: TargetKey)
    requires d.Filed() && done <= d.records.Keys && k in d.records && k !in done
    ensures var e := Reconciling(d, done); var s := d.records[k];
            && k in e.records && e.records[k] == s
            && var marked := Tombstoned(e, s);
               Reconciled(marked) == Reconciled(d) && marked.(records := marked.records - {k}) == Reconciling(d, done + {k})
  {
    hide Reconciled;
    var e := Reconciling(d, done);
    ReconciledAfterSome(d, done);
    if d.records[k].Parked() {
      WriteKeepsTarget(e, Mark(k));
    }
    var last := Reconciling(d, done + {k});
    assert e.records - {k} == last.records;
    if d.records[k].Parked() {
      assert e.tombs[k := MarkerOf(d.records[k])] == last.tombs;
    } else {
      assert e.tombs == last.tombs;
    }
  }

  lemma KeysGrow(rs: seq<TransportSession>, i: nat)
    requires i < |rs| && forall j | 0 <= j < i :: rs[j].targetKey != rs[i].targetKey
    ensures rs[i] in rs && rs[i].targetKey !in Keys(rs[..i]) && Keys(rs[..i + 1]) == Keys(rs[..i]) + {rs[i].targetKey}
    ensures Keys(rs[..i]) <= Keys(rs)
  {
    assert rs[..i + 1] == rs[..i] + [rs[i]];
  }

  // ----- convergence over crashes

  /** Reconciling some keys, and then everything, is the same as reconciling everything at once. */
  lemma ReconciledAfterSome(d: Durable, done: set<TargetKey>)
    requires done <= d.records.Keys
    ensures Reconciled(Reconciling(d, done)) == Reconciled(d)
  {
    var e := Reconciling(d, done);
    assert Reconciled(e).records == Reconciled(d).records;
    assert Reconciled(e).tombs == Reconciled(d).tombs;
  }

  /** The durable writes a reconciliation makes, in any order over the keys. */
  datatype Write = Mark(k: TargetKey) | Unlink(k: TargetKey)

  /** A parked record is unlinked only once its tombstone is on disk. */
  predicate InOrder(d: Durable, w: Write) {
    match w
    case Mark(k) => k in d.records && d.records[k].Parked()
    case Unlink(k) => k in d.records && (d.records[k].Parked() ==> Lookup(d.tombs, k) == Some(MarkerOf(d.records[k])))
  }

  function Written(d: Durable, w: Write): Durable
    requires InOrder(d, w)
  {
    match w
    case Mark(k) => d.(tombs := d.tombs[k := MarkerOf(d.records[k])])
    case Unlink(k) => d.(records := d.records - {k})
  }

  ghost predicate Follows(d: Durable, ws: seq<Write>, e: Durable)
    decreases |ws|
  {
    if ws == [] then d == e else InOrder(d, ws[0]) && Follows(Written(d, ws[0]), ws[1..], e)
  }

  lemma WriteKeepsTarget(d: Durable, w: Write)
    requires InOrder(d, w)
    ensures Reconciled(Written(d, w)) == Reconciled(d)
  {
    var e := Written(d, w);
    assert Reconciled(e).records == Reconciled(d).records;
    assert Reconciled(e).tombs == Reconciled(d).tombs;
  }

  /** A crash after any of its writes, followed by a rerun, ends with the files of an uninterrupted run. */
  lemma {:induction false} CrashThenRerun(d: Durable, ws: seq<Write>, e: Durable)
    requires Follows(d, ws, e)
    ensures Reconciled(e) == Reconciled(d)
    decreases |ws|
  {
    if ws != [] {
      WriteKeepsTarget(d, ws[0]);
      CrashThenRerun(Written(d, ws[0]), ws[1..], e);
    }
  }

  /** The durable writes for one record. */
  function WritesFor(s: TransportSession): seq<Write> {
    if s.Parked() then [Mark(s.targetKey), Unlink(s.targetKey)] else [Unlink(s.targetKey)]
  }

  /** The writes of ws, in order, take the files from d to e, and `trail` holds them after each write. */
  ghost predicate Trail(d: Durable, ws: seq<Write>, trail: seq<Durable>, e: Durable) {
    && Follows(d, ws, e) && |trail| == |ws|
    && forall n | 0 <= n < |trail| :: Follows(d, ws[..n + 1], trail[n])
  }

  lemma TrailStarts(d: Durable)
    ensures Trail(d, [], [], d)
  {
  }

  lemma {:induction false} FollowsOne(d: Durable, ws: seq<Write>, e: Durable, w: Write)
    requires Follows(d, ws, e) && InOrder(e, w)
    ensures Follows(d, ws + [w], Written(e, w))
    decreases |ws|
  {
    if ws == [] {
      assert (ws + [w])[1..] == [];
    } else {
      FollowsOne(Written(d, ws[0]), ws[1..], e, w);
      assert (ws + [w])[1..] == ws[1..] + [w];
    }
  }

  lemma TrailOne(d: Durable, ws: seq<Write>, trail: seq<Durable>, e: Durable, w: Write)
    requires Trail(d, ws, trail, e) && InOrder(e, w)
    ensures Trail(d, ws + [w], trail + [Written(e, w)], Written(e, w))
  {
    hide Follows;
    FollowsOne(d, ws, e, w);
    forall n | 0 <= n <= |trail|
      ensures Follows(d, (ws + [w])[..n + 1], (trail + [Written(e, w)])[n])
    {
      if n < |trail| {
        assert (ws + [w])[..n + 1] == ws[..n + 1];
      } else {
        assert (ws + [w])[..n + 1] == ws + [w];
      }
    }
  }

  lemma TrailGrows(d: Durable, ws: seq<Write>, trail: seq<Durable>, e: Durable, s: TransportSession)
    requires Trail(d, ws, trail, e) && Lookup(e.records, s.targetKey) == Some(s)
    ensures var marked := Tombstoned(e, s); var last := marked.(records := marked.records - {s.targetKey});
            Trail(d, ws + WritesFor(s), trail + (if s.Parked() then [marked, last] else [last]), last)
  {
    hide Trail;
    var k := s.targetKey;
    if s.Parked() {
      TrailOne(d, ws, trail, e, Mark(k));
      var marked := Tombstoned(e, s);
      TrailOne(d, ws + [Mark(k)], trail + [marked], marked, Unlink(k));
      assert ws + [Mark(k)] + [Unlink(k)] == ws + WritesFor(s);
      var last := marked.(records := marked.records - {k});
      assert trail + [marked] + [last] == trail + [marked, last];
    } else {
      TrailOne(d, ws, trail, e, Unlink(k));
    }
  }

  lemma TrailReruns(d: Durable, ws: seq<Write>, trail: seq<Durable>, e: Durable)
    requires Trail(d, ws, trail, e)
    ensures forall s | s in trail :: Reconciled(s) == Reconciled(d)
  {
    hide Reconciled, Follows;
    forall n | 0 <= n < |trail|
      ensures Reconciled(trail[n]) == Reconciled(d)
    {
      CrashThenRerun(d, ws[..n + 1], trail[n]);
    }
  }

  /**
    Once reconciled: no records, and every parked one tombstoned; a readable tombstone stays, unless
    its key's record was parked. Its generation goes back exactly when that record is of an earlier one.
    A rerun changes nothing.
   */
  lemma ReconciledFiles(d: Durable, k: TargetKey)
    requires d.Filed()
    ensures var e := Reconciled(d);
            && e.records == map[]
            && Reconciled(e) == e
            && Lookup(e.tombs, k) == (if k in d.records && d.records[k].executionState != Executing
                                      then Some(Marker(d.records[k].generation, FoundInState(d.records[k].executionState)))
                                      else Lookup(d.tombs, k))
            && (k in d.tombs && d.tombs[k].Marker? ==>
                  && k in e.tombs && e.tombs[k].Marker?
                  && (e.tombs[k].generation < d.tombs[k].generation <==>
                        && k in d.records && d.records[k].executionState != Executing
                        && d.records[k].generation < d.tombs[k].generation))
  {
    ReconciledAfterSome(d, d.records.Keys);
    var e := Reconciled(d);
    assert e.records == map[];
    assert Reconciled(e).tombs == e.tombs;
  }

  /** The latest of some generations, if there are any. */
  ghost predicate Latest(mark: Option<int>, generations: set<int>) {
    if generations == {} then mark.None? else mark.Some? && mark.value in generations && forall n | n in generations :: n <= mark.value
  }

  /**
    The gate of key k after reconciling. Admission is closed, at the first closed generation, and every live
    handle fenced, exactly when the key's record names a backend that was found alive and killed, unless a
    later incarnation is already published; otherwise closure and handles are as before. The recovery mark is
    the latest of the old one, a readable tombstone's and a record's that does not say EXECUTING.
   */
  lemma ReconciledGate(g: Gate, d: Durable, stop: TransportSession -> bool, k: TargetKey)
    ensures var t := Recovered(g, d, stop, k);
            var closes := && k in d.records && d.records[k].backendPid.Some? && stop(d.records[k])
                          && (g.closedAt.None? && g.snapshot.Some? ==> g.snapshot.value.generation <= d.records[k].generation);
            && t == g.(closedAt := t.closedAt, issued := t.issued, recovery := t.recovery)
            && t.closedAt == (if closes && g.closedAt.None? then Some(d.records[k].generation) else g.closedAt)
            && |t.issued| == |g.issued|
            && (forall h | 0 <= h < |g.issued| ::
                  t.issued[h] == g.issued[h].(cancelled := g.issued[h].cancelled || (closes && h in g.live)))
            && Latest(t.recovery,
                      (if g.recovery.Some? then {g.recovery.value} else {})
                      + (if k in d.tombs && d.tombs[k].Marker? then {d.tombs[k].generation} else {})
                      + (if k in d.records && d.records[k].executionState != Executing then {d.records[k].generation} else {}))
  {
    hide Gate.Close;
    var marked := Reasserted(g, Lookup(d.tombs, k));
    assert marked == g.(recovery := marked.recovery);
    if k in d.records {
      var parked := if d.records[k].Parked() then Step(marked, MarkRecovery(d.records[k].generation)) else marked;
      assert parked == g.(recovery := parked.recovery);
      ClosesWholly(parked, d.records[k].generation);
    }
  }

  lemma ClosesWholly(g: Gate, generation: int)
    ensures var t := g.Close(generation);
            var closes := g.closedAt.None? && g.snapshot.Some? ==> g.snapshot.value.generation <= generation;
            && t == g.(closedAt := t.closedAt, issued := t.issued)
            && t.closedAt == (if closes && g.closedAt.None? then Some(generation) else g.closedAt)
            && |t.issued| == |g.issued|
            && (forall h | 0 <= h < |g.issued| ::
                  t.issued[h] == g.issued[h].(cancelled := g.issued[h].cancelled || (closes && h in g.live)))
  {
  }

  /**
    After reconciling, every key with a readable tombstone is marked in the admission cache at a
    generation no earlier than the tombstone's, so an ordinary open is refused before a snapshot
    is published and until one of a later generation than the tombstone's is.
   */
  lemma TombstonedKeysAreGated(g: Gate, d: Durable, stop: TransportSession -> bool, k: TargetKey, generation: int)
    requires d.Filed()
    requires k in Reconciled(d).tombs && Reconciled(d).tombs[k].Marker?
    ensures var t := Recovered(g, d, stop, k); var durable := Reconciled(d).tombs[k].generation;
            && t.recovery.Some? && t.recovery.value >= durable
            && (t.closedAt.None? && (t.snapshot.None? || t.snapshot.value.generation <= durable)
                ==> t.BindSnapshot(generation, false) == Err(RecoveryRequired))
  {
  }
}
