/**
  The watchdog policy: capture the operator's knob values once, write relaxed ones, and put the
  captured ones back on teardown. Reads and writes of the target may fail knob by knob.
 */
module Watchdogs {
  import opened Common

  datatype WatchdogKnob = WatchdogKnob(name: string, relaxedValue: string, outOfBand: bool)

  datatype KnobOutcome = Relaxed | Absent | Skipped | WriteFailed

  /** The baseline read at the first relax, and whether that relax's own write went through. */
  datatype Captured = Captured(prior: map<string, string>, relaxed: map<string, bool>)

  datatype RestoreReport = RestoreReport(restored: map<string, bool>, noop: bool)

  /** Which knobs can be read and written during one call. */
  datatype Io = Io(readable: string -> bool, writable: string -> bool)

  predicate DistinctNames(knobs: seq<WatchdogKnob>) {
    forall i, j :: 0 <= i < j < |knobs| ==> knobs[i].name != knobs[j].name
  }

  datatype Arch = X86 | Ppc64le

  const GENERIC_LOCKUP_KNOBS := [
    WatchdogKnob("kernel.nmi_watchdog", "0", false),
    WatchdogKnob("kernel.watchdog", "0", false),
    WatchdogKnob("kernel.watchdog_thresh", "0", false),
    WatchdogKnob("kernel.softlockup_panic", "0", false),
    WatchdogKnob("kernel.hardlockup_panic", "0", false)]

  function KnobsForArch(arch: Arch): seq<WatchdogKnob> {
    if arch.Ppc64le? then GENERIC_LOCKUP_KNOBS + [WatchdogKnob("phyp_partition_watchdog", "disabled", true)]
    else GENERIC_LOCKUP_KNOBS
  }

  /** The knob list of every architecture names each knob once. */
  lemma ShippedKnobsAreDistinct(arch: Arch)
    ensures DistinctNames(KnobsForArch(arch))
  {
    var knobs := KnobsForArch(arch);
    assert |knobs[0].name| == 19 && |knobs[1].name| == 15 && |knobs[2].name| == 22;
    assert |knobs[3].name| == 23 && knobs[3].name[7] == 's' && |knobs[4].name| == 23 && knobs[4].name[7] == 'h';
    if arch.Ppc64le? {
      assert |knobs[5].name| == 23 && knobs[5].name[0] == 'p' && knobs[3].name[0] == 'k' && knobs[4].name[0] == 'k';
    }
  }

  /** The relaxed values of the in-band knobs; of a knob named twice, the later one. */
  function InBand(knobs: seq<WatchdogKnob>): map<string, string> {
    if knobs == [] then map[]
    else
      var rest, last := InBand(knobs[..|knobs| - 1]), knobs[|knobs| - 1];
      if last.outOfBand then rest else rest[last.name := last.relaxedValue]
  }

  lemma {:induction false} InBandNames(knobs: seq<WatchdogKnob>, n: string)
    ensures n in InBand(knobs) <==> exists k :: k in knobs && !k.outOfBand && k.name == n
  {
    if knobs != [] {
      InBandNames(knobs[..|knobs| - 1], n);
      assert knobs == knobs[..|knobs| - 1] + [knobs[|knobs| - 1]];
    }
  }

  // ----- one call, as a function on the target's knob values

  /** Relaxed values written over the captured knobs, as far as the writes go through. */
  function Relax(knobs: seq<WatchdogKnob>, values: map<string, string>, prior: map<string, string>, io: Io): map<string, string> {
    values + map n | n in prior && n in InBand(knobs) && io.writable(n) :: InBand(knobs)[n]
  }

  /** What the first relax remembers: each readable in-band knob's value as it finds it, the earlier ones already relaxed. */
  function Capture(knobs: seq<WatchdogKnob>, values: map<string, string>, io: Io): (c: Captured)
    ensures c.relaxed == map n | n in c.prior :: io.writable(n)
    ensures forall n | n in c.prior :: n in values && io.readable(n) && n in InBand(knobs)
  {
    if knobs == [] then Captured(map[], map[])
    else
      var init, last := knobs[..|knobs| - 1], knobs[|knobs| - 1];
      var c := Capture(init, values, io);
      if last.outOfBand || last.name !in values || !io.readable(last.name) then c
      else Captured(c.prior[last.name := Relax(init, values, c.prior, io)[last.name]], c.relaxed[last.name := io.writable(last.name)])
  }

  /** A knob to put back: it was captured, and the first relax did write it. */
  predicate Due(knobs: seq<WatchdogKnob>, captured: Captured, n: string) {
    n in captured.prior && n in captured.relaxed && captured.relaxed[n] && n in InBand(knobs)
  }

  /** The baseline put back on the knobs whose first relax write went through. */
  function Restore(knobs: seq<WatchdogKnob>, values: map<string, string>, captured: Captured, io: Io): map<string, string> {
    values + map n | n in captured.prior && Due(knobs, captured, n) && io.writable(n) :: captured.prior[n]
  }

  /** The names whose restore is attempted, and whether the write goes through. */
  function Report(knobs: seq<WatchdogKnob>, captured: Captured, io: Io): map<string, bool> {
    map n | n in captured.prior && Due(knobs, captured, n) :: io.writable(n)
  }

  function OutcomeOf(knob: WatchdogKnob, prior: map<string, string>, io: Io): KnobOutcome {
    if knob.outOfBand then Skipped
    else if knob.name !in prior then Absent
    else if io.writable(knob.name) then Relaxed
    else WriteFailed
  }

  function Outcomes(knobs: seq<WatchdogKnob>, prior: map<string, string>, io: Io): map<string, KnobOutcome> {
    if knobs == [] then map[]
    else Outcomes(knobs[..|knobs| - 1], prior, io)[knobs[|knobs| - 1].name := OutcomeOf(knobs[|knobs| - 1], prior, io)]
  }

  /** The target's side of the channel. A failed write changes nothing. */
  class WatchdogControl {
    var values: map<string, string>

    method ReadKnob(n: string, ok: bool) returns (v: Option<string>)
      ensures v == if ok then Lookup(values, n) else None
    {
      return if ok then Lookup(values, n) else None;
    }

    method WriteKnob(n: string, v: string, ok: bool) returns (written: bool)
      modifies this
      ensures written == ok && values == if ok then old(values)[n := v] else old(values)
    {
      if ok {
        values := values[n := v];
      }
      return ok;
    }
  }

  /** The captured knobs are the readable in-band ones. */
  lemma {:induction false} CapturedKeys(knobs: seq<WatchdogKnob>, values: map<string, string>, io: Io, n: string)
    ensures n in Capture(knobs, values, io).prior <==> n in InBand(knobs) && n in values && io.readable(n)
  {
    if knobs != [] {
      CapturedKeys(knobs[..|knobs| - 1], values, io, n);
    }
  }

  lemma RelaxOneMore(knobs: seq<WatchdogKnob>, i: nat, values: map<string, string>, prior: map<string, string>, io: Io)
    requires i < |knobs|
    ensures var v, knob := Relax(knobs[..i], values, prior, io), knobs[i];
            Relax(knobs[..i + 1], values, prior, io)
            == if knob.outOfBand || knob.name !in prior || !io.writable(knob.name) then v else v[knob.name := knob.relaxedValue]
  {
    assert knobs[..i + 1][..i] == knobs[..i];
  }

  lemma CaptureOneMore(knobs: seq<WatchdogKnob>, i: nat, values: map<string, string>, io: Io)
    requires i < |knobs|
    ensures var c, knob := Capture(knobs[..i], values, io), knobs[i];
            Capture(knobs[..i + 1], values, io)
            == if knob.outOfBand || knob.name !in values || !io.readable(knob.name) then c
               else Captured(c.prior[knob.name := Relax(knobs[..i], values, c.prior, io)[knob.name]],
                             c.relaxed[knob.name := io.writable(knob.name)])
  {
    hide InBand, Relax;
    assert knobs[..i + 1][..i] == knobs[..i];
  }

  /** Capturing one more knob leaves what the earlier ones wrote: a name among them had been captured already. */
  lemma RelaxUnmoved(knobs: seq<WatchdogKnob>, i: nat, values: map<string, string>, io: Io)
    requires i < |knobs|
    ensures Relax(knobs[..i], values, Capture(knobs[..i + 1], values, io).prior, io)
            == Relax(knobs[..i], values, Capture(knobs[..i], values, io).prior, io)
  {
    hide InBand, Capture;
    var c, d := Capture(knobs[..i], values, io).prior, Capture(knobs[..i + 1], values, io).prior;
    var names := InBand(knobs[..i]);
    CaptureOneMore(knobs, i, values, io);
    CapturedKeys(knobs[..i], values, io, knobs[i].name);
    assert forall n | n in d :: n in c || n == knobs[i].name;
    assert forall n | n in names :: n in d <==> n in c;
  }

  /** One more knob of the first relax, in terms of the knob values the earlier ones have left. */
  lemma FirstRelaxOneMore(knobs: seq<WatchdogKnob>, i: nat, values: map<string, string>, io: Io)
    requires i < |knobs|
    ensures var c, d, knob := Capture(knobs[..i], values, io), Capture(knobs[..i + 1], values, io), knobs[i];
            var v, w := Relax(knobs[..i], values, c.prior, io), Relax(knobs[..i + 1], values, d.prior, io);
            var read := !knob.outOfBand && knob.name in values && io.readable(knob.name);
            && (knob.name in v <==> knob.name in values)
            && (knob.outOfBand || (knob.name in Capture(knobs, values, io).prior <==> read))
            && (if !read then d == c && w == v
                else && d == Captured(c.prior[knob.name := v[knob.name]], c.relaxed[knob.name := io.writable(knob.name)])
                     && w == if io.writable(knob.name) then v[knob.name := knob.relaxedValue] else v)
  {
    hide Relax, Capture;
    var n := knobs[i].name;
    RelaxOneMore(knobs, i, values, Capture(knobs[..i + 1], values, io).prior, io);
    CaptureOneMore(knobs, i, values, io);
    RelaxUnmoved(knobs, i, values, io);
    InBandNames(knobs, n);
    CapturedKeys(knobs, values, io, n);
    CapturedKeys(knobs[..i + 1], values, io, n);
    RelaxedValue(knobs[..i], values, Capture(knobs[..i], values, io).prior, io, n);
  }

  lemma DueOneMore(knobs: seq<WatchdogKnob>, i: nat, captured: Captured)
    requires i < |knobs|
    ensures forall n :: Due(knobs[i..], captured, n) <==>
                          Due(knobs[i + 1..], captured, n) || (n == knobs[i].name && Due([knobs[i]], captured, n))
  {
    forall n
      ensures Due(knobs[i..], captured, n) <==>
                Due(knobs[i + 1..], captured, n) || (n == knobs[i].name && Due([knobs[i]], captured, n))
    {
      InBandNames(knobs[i..], n);
      InBandNames(knobs[i + 1..], n);
      InBandNames([knobs[i]], n);
      assert knobs[i..] == [knobs[i]] + knobs[i + 1..];
    }
  }

  lemma RestoreOneMore(knobs: seq<WatchdogKnob>, i: nat, values: map<string, string>, captured: Captured, io: Io)
    requires i < |knobs|
    ensures var v, n := Restore(knobs[i + 1..], values, captured, io), knobs[i].name;
            Restore(knobs[i..], values, captured, io)
            == if n in captured.prior && Due([knobs[i]], captured, n) && io.writable(n) then v[n := captured.prior[n]] else v
  {
    hide Due;
    DueOneMore(knobs, i, captured);
  }

  lemma ReportOneMore(knobs: seq<WatchdogKnob>, i: nat, captured: Captured, io: Io)
    requires i < |knobs|
    ensures var r, n := Report(knobs[i + 1..], captured, io), knobs[i].name;
            Report(knobs[i..], captured, io)
            == if n in captured.prior && Due([knobs[i]], captured, n) then r[n := io.writable(n)] else r
  {
    hide Due;
    DueOneMore(knobs, i, captured);
  }

  lemma RelaxedValue(knobs: seq<WatchdogKnob>, values: map<string, string>, prior: map<string, string>, io: Io, n: string)
    requires forall m | m in prior :: m in values
    ensures n in Relax(knobs, values, prior, io) <==> n in values
  {
    hide InBand;
  }

  lemma NothingCaptured(values: map<string, string>, io: Io)
    ensures Capture([], values, io) == Captured(map[], map[]) && Relax([], values, map[], io) == values
  {
  }

  lemma NothingRelaxed(values: map<string, string>, prior: map<string, string>, io: Io)
    ensures Relax([], values, prior, io) == values
  {
  }

  lemma NothingRestored(values: map<string, string>, captured: Captured, io: Io)
    ensures Restore([], values, captured, io) == values && Report([], captured, io) == map[]
  {
  }

  class WatchdogPolicy {
    const knobs: seq<WatchdogKnob>
    const channel: WatchdogControl
    var captures: map<nat, Captured>

    constructor (knobs: seq<WatchdogKnob>, channel: WatchdogControl)
      ensures this.knobs == knobs && this.channel == channel && captures == map[]
    {
      this.knobs, this.channel, captures := knobs, channel, map[];
    }

    /** The first relax of a session: read, remember, write. */
    method FirstRelax(io: Io) returns (captured: Captured, outcomes: map<string, KnobOutcome>)
      modifies channel
      ensures captured == Capture(knobs, old(channel.values), io)
      ensures channel.values == Relax(knobs, old(channel.values), captured.prior, io)
      ensures outcomes == Outcomes(knobs, captured.prior, io)
    {
      hide Relax, InBand, Capture;
      ghost var values := channel.values;
      ghost var whole := Capture(knobs, values, io);
      NothingCaptured(values, io);
      captured, outcomes := Captured(map[], map[]), map[];
      for i := 0 to |knobs|
        invariant captured == Capture(knobs[..i], values, io)
        invariant channel.values == Relax(knobs[..i], values, captured.prior, io)
        invariant outcomes == Outcomes(knobs[..i], whole.prior, io)
      {
        var knob := knobs[i];
        FirstRelaxOneMore(knobs, i, values, io);
        assert knobs[..i + 1][..i] == knobs[..i];
        if knob.outOfBand {
          outcomes := outcomes[knob.name := Skipped];
        } else {
          var prior := channel.ReadKnob(knob.name, io.readable(knob.name));
          if prior.None? {
            outcomes := outcomes[knob.name := Absent];
          } else {
            var ok := channel.WriteKnob(knob.name, knob.relaxedValue, io.writable(knob.name));
            captured := Captured(captured.prior[knob.name := prior.value], captured.relaxed[knob.name := ok]);
            outcomes := outcomes[knob.name := if ok then Relaxed else WriteFailed];
          }
        }
      }
      assert knobs[..|knobs|] == knobs;
    }

    /** A later relax writes again, reads nothing and remembers nothing. */
    method ReissueRelax(captured: Captured, io: Io) returns (outcomes: map<string, KnobOutcome>)
      modifies channel
      ensures channel.values == Relax(knobs, old(channel.values), captured.prior, io)
      ensures outcomes == Outcomes(knobs, captured.prior, io)
    {
      hide Relax, InBand;
      ghost var values := channel.values;
      NothingRelaxed(values, captured.prior, io);
      outcomes := map[];
      for i := 0 to |knobs|
        invariant channel.values == Relax(knobs[..i], values, captured.prior, io)
        invariant outcomes == Outcomes(knobs[..i], captured.prior, io)
      {
        var knob := knobs[i];
        RelaxOneMore(knobs, i, values, captured.prior, io);
        assert knobs[..i + 1][..i] == knobs[..i];
        if knob.outOfBand {
          outcomes := outcomes[knob.name := Skipped];
        } else if knob.name !in captured.prior {
          outcomes := outcomes[knob.name := Absent];
        } else {
          var ok := channel.WriteKnob(knob.name, knob.relaxedValue, io.writable(knob.name));
          outcomes := outcomes[knob.name := if ok then Relaxed else WriteFailed];
        }
      }
      assert knobs[..|knobs|] == knobs;
    }

    method RelaxSession(session: nat, io: Io) returns (outcomes: map<string, KnobOutcome>)
      modifies this, channel
      ensures var captured := if session in old(captures) then old(captures)[session] else Capture(knobs, old(channel.values), io);
              && captures == old(captures)[session := captured]
              && channel.values == Relax(knobs, old(channel.values), captured.prior, io)
              && outcomes == Outcomes(knobs, captured.prior, io)
    {
      if session in captures {
        outcomes := ReissueRelax(captures[session], io);
      } else {
        var captured;
        captured, outcomes := FirstRelax(io);
        captures := captures[session := captured];
      }
    }

    /** The capture goes whatever happens; the knobs are put back last first. */
    method RestoreSession(session: Option<nat>, io: Io) returns (r: RestoreReport)
      modifies this, channel
      ensures session.None? || session.value !in old(captures) ==>
                r == RestoreReport(map[], true) && captures == old(captures) && channel.values == old(channel.values)
      ensures session.Some? && session.value in old(captures) ==>
                && var captured := old(captures)[session.value];
                   && !r.noop && captures == old(captures) - {session.value}
                   && channel.values == Restore(knobs, old(channel.values), captured, io)
                   && r.restored == Report(knobs, captured, io)
    {
      hide Restore, Report, InBand;
      if session.None? || session.value !in captures {
        return RestoreReport(map[], true);
      }
      var captured := captures[session.value];
      captures := captures - {session.value};
      var restored: map<string, bool> := map[];
      ghost var values := channel.values;
      var i := |knobs|;
      NothingRestored(values, captured, io);
      assert knobs[i..] == [];
      while i > 0
        invariant 0 <= i <= |knobs|
        invariant captures == old(captures) - {session.value}
        invariant channel.values == Restore(knobs[i..], values, captured, io)
        invariant restored == Report(knobs[i..], captured, io)
      {
        i := i - 1;
        var knob := knobs[i];
        RestoreOneMore(knobs, i, values, captured, io);
        ReportOneMore(knobs, i, captured, io);
        InBandNames([knob], knob.name);
        if !knob.outOfBand && knob.name in captured.relaxed && captured.relaxed[knob.name] && knob.name in captured.prior {
          var ok := channel.WriteKnob(knob.name, captured.prior[knob.name], io.writable(knob.name));
          restored := restored[knob.name := ok];
        }
      }
      assert knobs[0..] == knobs;
      return RestoreReport(restored, false);
    }
  }

  // ----- a session from its first relax to its restore

  /** The list without the last in-band knob of name n, and what follows it. */
  function BeforeLast(knobs: seq<WatchdogKnob>, n: string): seq<WatchdogKnob> {
    if knobs == [] then []
    else if !knobs[|knobs| - 1].outOfBand && knobs[|knobs| - 1].name == n then knobs[..|knobs| - 1]
    else BeforeLast(knobs[..|knobs| - 1], n)
  }

  /**
    The first relax captures a knob's baseline unless the list has named the knob before, that earlier relax
    was written, and it was to another value.
   */
  lemma {:induction false} CapturesBaseline(knobs: seq<WatchdogKnob>, values: map<string, string>, io: Io, n: string)
    requires n in Capture(knobs, values, io).prior
    ensures Capture(knobs, values, io).prior[n] == values[n]
            <==> n !in InBand(BeforeLast(knobs, n)) || !io.writable(n) || InBand(BeforeLast(knobs, n))[n] == values[n]
  {
    var init, last := knobs[..|knobs| - 1], knobs[|knobs| - 1];
    if last.outOfBand || last.name != n {
      CapturesBaseline(init, values, io, n);
    } else {
      CapturedKeys(init, values, io, n);
    }
  }

  lemma {:induction false} NamedOnce(knobs: seq<WatchdogKnob>, n: string)
    requires DistinctNames(knobs)
    ensures n !in InBand(BeforeLast(knobs, n))
  {
    if knobs != [] {
      var init, last := knobs[..|knobs| - 1], knobs[|knobs| - 1];
      if last.outOfBand || last.name != n {
        NamedOnce(init, n);
      } else {
        InBandNames(init, n);
      }
    }
  }

  /** The values after a first relax and any number of reissues. */
  function Reissued(knobs: seq<WatchdogKnob>, values: map<string, string>, prior: map<string, string>, ios: seq<Io>): map<string, string> {
    if ios == [] then values else Relax(knobs, Reissued(knobs, values, prior, ios[..|ios| - 1]), prior, ios[|ios| - 1])
  }

  /** Some relax of the session wrote knob n. */
  predicate EverWritten(n: string, ios: seq<Io>) {
    exists i :: 0 <= i < |ios| && ios[i].writable(n)
  }

  lemma {:induction false} ReissuedValue(knobs: seq<WatchdogKnob>, values: map<string, string>, prior: map<string, string>,
                                         ios: seq<Io>, n: string)
    requires n in values && prior.Keys <= InBand(knobs).Keys
    ensures var v := Reissued(knobs, values, prior, ios);
            && n in v
            && v[n] == if n in prior && EverWritten(n, ios) then InBand(knobs)[n] else values[n]
    decreases |ios|
  {
    hide InBand;
    if ios != [] {
      var before, last := ios[..|ios| - 1], ios[|ios| - 1];
      ReissuedValue(knobs, values, prior, before, n);
      assert EverWritten(n, ios) <==> EverWritten(n, before) || last.writable(n);
    }
  }

  /**
    After a first relax, any reissues and a restore, a knob has its baseline value again exactly when it was
    never captured, or no relax ever wrote it, or both its first relax wrote it and the restore did and its
    baseline was what had been captured, or else its relaxed value is its baseline. So a knob whose first
    write failed and a later one succeeded stays relaxed.
   */
  lemma RestoredExactlyWhen(knobs: seq<WatchdogKnob>, values: map<string, string>, first: Io, reissues: seq<Io>, last: Io, n: string)
    requires n in values
    ensures var captured := Capture(knobs, values, first);
            var relaxed := Reissued(knobs, values, captured.prior, [first] + reissues);
            var restored := Restore(knobs, relaxed, captured, last);
            && n in restored
            && (restored[n] == values[n] <==>
                  || n !in captured.prior || !EverWritten(n, [first] + reissues)
                  || (if first.writable(n) && last.writable(n) then captured.prior[n] else InBand(knobs)[n]) == values[n])
  {
    hide InBand, Reissued;
    var captured := Capture(knobs, values, first);
    ReissuedValue(knobs, values, captured.prior, [first] + reissues, n);
    if first.writable(n) {
      assert ([first] + reissues)[0].writable(n);
    }
  }

  /**
    What the reports say. Of a list that names each knob once, a relax reports a knob skipped if it is out of
    band, absent if it could not be read, and otherwise whether it was written; the restore attempts exactly
    the knobs the relax wrote, and reports whether it wrote them back.
   */
  lemma ReportsTell(knobs: seq<WatchdogKnob>, values: map<string, string>, first: Io, last: Io, knob: WatchdogKnob)
    requires DistinctNames(knobs) && knob in knobs
    ensures var captured := Capture(knobs, values, first); var n := knob.name;
            var read := n in values && first.readable(n);
            && Lookup(Outcomes(knobs, captured.prior, first), n)
               == Some(if knob.outOfBand then Skipped else if !read then Absent
                       else if first.writable(n) then KnobOutcome.Relaxed else WriteFailed)
            && Lookup(Report(knobs, captured, last), n)
               == if !knob.outOfBand && read && first.writable(n) then Some(last.writable(n)) else None
  {
    var captured := Capture(knobs, values, first);
    InBandNames(knobs, knob.name);
    CapturedKeys(knobs, values, first, knob.name);
    assert knob.name in InBand(knobs) <==> !knob.outOfBand;
    hide InBand, Capture;
    OutcomesOfAll(knobs, captured.prior, first);
  }

  lemma {:induction false} OutcomesOfAll(knobs: seq<WatchdogKnob>, prior: map<string, string>, io: Io)
    requires DistinctNames(knobs)
    ensures Outcomes(knobs, prior, io).Keys == set k | k in knobs :: k.name
    ensures forall k | k in knobs :: Outcomes(knobs, prior, io)[k.name] == OutcomeOf(k, prior, io)
  {
    if knobs != [] {
      var last := |knobs| - 1;
      OutcomesOfAll(knobs[..last], prior, io);
      assert knobs == knobs[..last] + [knobs[last]];
    }
  }

  /** With one relax and a restore whose writes go through, every knob is back, whatever the relax could not read or write. */
  lemma OneRelaxRestores(knobs: seq<WatchdogKnob>, values: map<string, string>, first: Io, last: Io)
    requires DistinctNames(knobs) && forall n :: last.writable(n)
    ensures var captured := Capture(knobs, values, first);
            Restore(knobs, Relax(knobs, values, captured.prior, first), captured, last) == values
  {
    hide InBand;
    var captured := Capture(knobs, values, first);
    var relaxed := Relax(knobs, values, captured.prior, first);
    var restored := Restore(knobs, relaxed, captured, last);
    assert relaxed.Keys == values.Keys && restored.Keys == values.Keys;
    forall n | n in values
      ensures restored[n] == values[n]
    {
      if n in captured.prior {
        NamedOnce(knobs, n);
        CapturesBaseline(knobs, values, first, n);
        assert Due(knobs, captured, n) <==> first.writable(n);
      }
    }
  }

  /**
    When every write goes through, a readable in-band knob comes back exactly unless the list names it twice
    and the earlier relaxed value is not its baseline, which is then captured as if it were.
   */
  lemma NamedTwiceStaysRelaxed(knobs: seq<WatchdogKnob>, values: map<string, string>, first: Io, reissues: seq<Io>, last: Io,
                               n: string)
    requires n in values && n in InBand(knobs) && first.readable(n) && first.writable(n) && last.writable(n)
    ensures var captured := Capture(knobs, values, first);
            var relaxed := Reissued(knobs, values, captured.prior, [first] + reissues);
            var restored := Restore(knobs, relaxed, captured, last);
            var earlier := InBand(BeforeLast(knobs, n));
            n in restored && (restored[n] == values[n] <==> n in earlier ==> earlier[n] == values[n])
  {
    hide InBand, BeforeLast, Capture, Reissued, Restore;
    RestoredExactlyWhen(knobs, values, first, reissues, last, n);
    CapturedKeys(knobs, values, first, n);
    CapturesBaseline(knobs, values, first, n);
    assert ([first] + reissues)[0].writable(n);
  }
}
