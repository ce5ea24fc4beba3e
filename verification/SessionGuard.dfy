/** The lifecycle policy of an interactive session: ordered preconditions, and the teardown that never raises. */
module SessionGuards {
  import opened Common
  import opened Registries
  import opened Ledgers
  import opened Sessions
  import opened Transactions

  /** A precondition and whether it passes for the context at hand. */
  datatype Precondition = Precondition(name: string, passes: bool)

  /** A teardown step and whether it raises. */
  datatype TeardownStep = TeardownStep(name: string, raises: bool)

  datatype TeardownReport = TeardownReport(stepErrors: set<string>, closeFailed: bool, resumeOk: bool)

  function LastFirst(steps: seq<TeardownStep>): seq<TeardownStep> {
    if steps == [] then [] else LastFirst(steps[1..]) + [steps[0]]
  }

  lemma {:induction false} LastFirstReverses(steps: seq<TeardownStep>, i: nat)
    requires i < |steps|
    ensures |LastFirst(steps)| == |steps| && LastFirst(steps)[i] == steps[|steps| - 1 - i]
  {
    if |steps| > 1 {
      LastFirstReverses(steps[1..], if i < |steps| - 1 then i else 0);
    }
  }

  /** The first precondition of `checks` that fails, if any does. */
  ghost predicate FirstFailing(checks: seq<Precondition>, failed: Option<string>) {
    && (failed.None? <==> forall c | c in checks :: c.passes)
    && (failed.Some? ==>
          exists i :: 0 <= i < |checks| && !checks[i].passes && checks[i].name == failed.value
                      && forall j | 0 <= j < i :: checks[j].passes)
  }

  lemma {:induction false} CloseKeepsSidsUnique(l: Ledger, sid: nat, force: bool, io: CloseIo)
    requires l.files.Filed() && l.Unambiguous()
    ensures CloseSession(l, sid, force, io).ledger.Unambiguous()
  {
    if KeyOf(l, sid).Some? {
      var j := KeyOf(l, sid).value;
      var c := CloseSession(l, sid, force, io).ledger;
      forall k | k in c.files.records
        ensures k in l.files.records && c.files.records[k].sid == l.files.records[k].sid
      {
      }
    }
  }

  /** When session ids on disk are unique, there is only one record a lookup can find. */
  lemma FoundIsUnique(l: Ledger, sid: nat, at: Option<TargetKey>)
    requires l.Unambiguous() && Finds(l, sid, at)
    ensures at == KeyOf(l, sid)
  {
    if at.Some? {
      KeyFound(l, at.value, sid);
    }
  }

  /** And then the teardown's outcome is the ledger function's. */
  lemma TornDownUniquely(l: Ledger, k: TargetKey, sid: nat, io: TeardownIo, at: Option<TargetKey>, t: Ledgers.Teardown)
    requires l.files.Filed() && l.Unambiguous() && TornDown(l, k, sid, io, at, t)
    ensures t == TeardownSession(l, k, sid, io)
  {
    hide CloseFound, ReleaseFound, Ledger.Unambiguous;
    FoundIsUnique(l, sid, at);
    CloseKeepsSidsUnique(l, sid, false, io.closing);
    var closed := CloseSession(l, sid, false, io.closing).ledger;
    if !ResumeHolds(closed, k) {
      var again: Option<TargetKey> :| Finds(closed, sid, again)
        && var released := ReleaseFound(closed, sid, again, io.reapDeleted).ledger;
           t == Ledgers.Teardown(released, ResumeHolds(released, k));
      FoundIsUnique(closed, sid, again);
    }
  }

  class SessionGuard {
    const preAttach: seq<Precondition>
    const postAttach: seq<Precondition>
    const teardownSteps: seq<TeardownStep>

    constructor (preAttach: seq<Precondition>, postAttach: seq<Precondition>, teardownSteps: seq<TeardownStep>)
      ensures this.preAttach == preAttach && this.postAttach == postAttach && this.teardownSteps == teardownSteps
    {
      this.preAttach, this.postAttach, this.teardownSteps := preAttach, postAttach, teardownSteps;
    }

    /** The first precondition that fails, in declared order; the checks after it do not run. */
    static method FirstFailure(checks: seq<Precondition>) returns (failed: Option<string>)
      ensures FirstFailing(checks, failed)
    {
      for i := 0 to |checks|
        invariant forall j | 0 <= j < i :: checks[j].passes
      {
        if !checks[i].passes {
          return Some(checks[i].name);
        }
      }
      return None;
    }

    method Enter() returns (failed: Option<string>)
      ensures FirstFailing(preAttach, failed)
    {
      failed := FirstFailure(preAttach);
    }

    method VerifyAttached() returns (failed: Option<string>)
      ensures FirstFailing(postAttach, failed)
    {
      failed := FirstFailure(postAttach);
    }

    /** close, then force_release if a HALTED record is still on disk; neither failure goes further than the result. */
    static method CloseOrRelease(tx: TransportTransaction, k: TargetKey, sid: nat, io: TeardownIo)
      returns (closeFailed: bool, resumeOk: bool, ghost at: Option<TargetKey>)
      requires tx.Valid()
      modifies tx, tx.admission`bindings, tx.admission`recoveryRequired, tx.admission.handles, tx.registry, tx.guard, tx.leases,
               tx.leases.Repr(), tx.dispatcher
      ensures tx.Valid()
      ensures TornDown(old(tx.Books()), k, sid, io, at, Ledgers.Teardown(tx.Books(), resumeOk))
      ensures closeFailed == CloseFound(old(tx.Books()), at, false, io.closing).failed
    {
      hide TransportTransaction.Valid, TransportTransaction.Books, CloseFound, ReleaseFound, Finds;
      closeFailed, at := tx.Close(sid, false, io.closing);
      resumeOk := tx.ResumeHolds(k);
      if !resumeOk {
        var failed; ghost var again;
        failed, again := tx.ForceRelease(sid, io.reapDeleted);
        resumeOk := tx.ResumeHolds(k);
      }
    }

    /** All steps run, last first, whatever the others do; then the session is closed or released. Nothing is raised. */
    method Teardown(tx: TransportTransaction, k: TargetKey, sid: nat, io: TeardownIo)
      returns (report: TeardownReport, ghost ran: seq<TeardownStep>, ghost at: Option<TargetKey>)
      requires tx.Valid()
      modifies tx, tx.admission`bindings, tx.admission`recoveryRequired, tx.admission.handles, tx.registry, tx.guard, tx.leases,
               tx.leases.Repr(), tx.dispatcher
      ensures tx.Valid()
      ensures ran == LastFirst(teardownSteps)
      ensures forall n :: n in report.stepErrors <==> exists s :: s in teardownSteps && s.raises && s.name == n
      ensures TornDown(old(tx.Books()), k, sid, io, at, Ledgers.Teardown(tx.Books(), report.resumeOk))
      ensures report.closeFailed == CloseFound(old(tx.Books()), at, false, io.closing).failed
    {
      hide TransportTransaction.Valid, TransportTransaction.Books, CloseFound, TornDown, Finds;
      var errors: set<string> := {};
      ran := [];
      var i := |teardownSteps|;
      while i > 0
        invariant 0 <= i <= |teardownSteps|
        invariant ran == LastFirst(teardownSteps[i..])
        invariant forall n :: n in errors <==> exists s :: s in teardownSteps[i..] && s.raises && s.name == n
      {
        i := i - 1;
        var step := teardownSteps[i];
        assert teardownSteps[i..] == [step] + teardownSteps[i + 1..];
        if step.raises {
          errors := errors + {step.name};
        }
        ran := ran + [step];
      }
      assert teardownSteps[0..] == teardownSteps;
      var closeFailed, resumeOk;
      closeFailed, resumeOk, at := CloseOrRelease(tx, k, sid, io);
      report := TeardownReport(errors, closeFailed, resumeOk);
    }
  }
}
