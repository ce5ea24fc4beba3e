/**
  The in-process lifecycle dispatcher: bounded teardown of a target's subscribers, single-flight
  per subscriber instance. A worker is a number; which workers are still alive changes on its own.
 */
module Dispatchers {
  import opened Common

  /** One registered subscriber instance. */
  datatype WorkerKey = WorkerKey(target: TargetKey, name: string, instance: nat)

  /** How an invalidate or force_drop worker stands at the deadline. */
  datatype Fate = Finished | Raised | StillRunning

  datatype EmitError = StillOverdue | InvalidateRaised | Exceeded | ForceDropRaised | BothExceeded

  datatype InvalidationResult = InvalidationResult(errors: map<string, EmitError>, overdue: set<string>, forceDropped: set<string>)

  /** The dispatcher's tables, the live workers, and every invalidate worker ever started. */
  datatype Board = Board(
    subscribers: map<TargetKey, map<string, nat>>,
    overdue: map<WorkerKey, nat>,
    alive: set<nat>,
    started: map<nat, WorkerKey>)
  {
    function Targeted(k: TargetKey): map<string, nat> {
      if k in subscribers then subscribers[k] else map[]
    }

    predicate Wedged(key: WorkerKey) {
      key in overdue && overdue[key] in alive
    }

    /** Every live invalidate worker is the one recorded as overdue for its instance. */
    ghost predicate SingleFlight() {
      forall w | w in alive :: w in started && started[w] in overdue && overdue[started[w]] == w
    }
  }

  /** What becomes of one targeted subscriber: already wedged, torn down, or force-dropped. */
  function Verdict(wedged: bool, invalidate: Fate, drop: Fate): Option<EmitError> {
    if wedged then Some(StillOverdue)
    else match invalidate
         case Finished => None
         case Raised => Some(InvalidateRaised)
         case StillRunning => (match drop
                               case Finished => Some(Exceeded)
                               case Raised => Some(ForceDropRaised)
                               case StillRunning => Some(BothExceeded))
  }

  /** Invalidate workers were started for the instances of `names`, one each; those still running are recorded. */
  ghost predicate Launched(b: Board, c: Board, k: TargetKey, names: map<string, nat>, invalidate: string -> Fate) {
    && c.subscribers == b.subscribers
    && (forall w | w in b.started :: w in c.started && c.started[w] == b.started[w])
    && b.alive <= c.alive
    && (forall w | w in c.alive && w !in b.alive :: w in c.started && w !in b.started)
    && (forall w | w in c.started && w !in b.started :: LaunchedOne(c, k, names, invalidate, w))
    && (forall w, v | w in c.started && w !in b.started && v in c.started && v !in b.started && w != v ::
          c.started[w].name != c.started[v].name)
    && (forall n | n in names :: exists w :: w in c.started && w !in b.started && c.started[w] == WorkerKey(k, n, names[n]))
  }

  ghost predicate LaunchedOne(c: Board, k: TargetKey, names: map<string, nat>, invalidate: string -> Fate, w: nat)
    requires w in c.started
  {
    var key := c.started[w];
    && key.target == k && key.name in names && names[key.name] == key.instance
    && (w in c.alive <==> invalidate(key.name).StillRunning?)
  }

  /** The instances an emit for k invalidates: those targeted and not still wedged from an earlier emit. */
  function Runnable(b: Board, k: TargetKey): map<string, nat> {
    map n | n in b.Targeted(k) && !b.Wedged(WorkerKey(k, n, b.Targeted(k)[n])) :: b.Targeted(k)[n]
  }

  /** One emit for target k: one new worker for each instance that is not wedged, none for any other. */
  ghost predicate EmitStep(b: Board, c: Board, k: TargetKey, invalidate: string -> Fate) {
    && Launched(b, c, k, Runnable(b, k), invalidate)
    && (forall key | b.Wedged(key) :: key in c.overdue && c.overdue[key] == b.overdue[key])
    && (forall w | w in c.alive && w !in b.alive :: c.started[w] in c.overdue && c.overdue[c.started[w]] == w)
    && (forall key | key in c.overdue :: c.overdue[key] in c.alive)
  }

  /** The names whose invalidate overran, among those not pending. */
  function Stuck(runnable: map<string, nat>, pending: set<string>, invalidate: string -> Fate): set<string> {
    set n | n in runnable && n !in pending && invalidate(n).StillRunning?
  }

  function Raising(runnable: map<string, nat>, pending: set<string>, invalidate: string -> Fate): map<string, EmitError> {
    map n | n in runnable && n !in pending && invalidate(n).Raised? :: InvalidateRaised
  }

  /** The workers still running since b are recorded, each for its own instance. */
  ghost predicate Records(b: Board, c: Board, k: TargetKey, runnable: map<string, nat>, wedged: set<string>,
                          recorded: map<WorkerKey, nat>)
  {
    && (forall key :: key in recorded <==>
          key.target == k && key.name in wedged && key.name in runnable && runnable[key.name] == key.instance)
    && (forall w | w in c.alive && w !in b.alive :: w in c.started && c.started[w] in recorded && recorded[c.started[w]] == w)
    && (forall key | key in recorded :: recorded[key] in c.alive && recorded[key] !in b.alive)
  }

  lemma StuckNone(runnable: map<string, nat>, invalidate: string -> Fate)
    ensures Stuck(runnable, runnable.Keys, invalidate) == {} && Raising(runnable, runnable.Keys, invalidate) == map[]
  {
  }

  lemma StuckOneMore(runnable: map<string, nat>, pending: set<string>, n: string, invalidate: string -> Fate)
    requires n in pending && pending <= runnable.Keys
    ensures Stuck(runnable, pending - {n}, invalidate) ==
            Stuck(runnable, pending, invalidate) + if invalidate(n).StillRunning? then {n} else {}
    ensures Raising(runnable, pending - {n}, invalidate) ==
            if invalidate(n).Raised? then Raising(runnable, pending, invalidate)[n := InvalidateRaised]
            else Raising(runnable, pending, invalidate)
  {
  }

  lemma LaunchNone(b: Board, k: TargetKey, invalidate: string -> Fate)
    ensures Launched(b, b, k, map[], invalidate) && forall names: map<string, nat> :: Records(b, b, k, names, {}, map[])
  {
  }

  lemma LaunchOneMore(b: Board, c: Board, k: TargetKey, runnable: map<string, nat>, pending: set<string>, n: string,
                      invalidate: string -> Fate, w: nat)
    requires n in pending && pending <= runnable.Keys && w !in c.started && c.alive <= c.started.Keys
    requires Launched(b, c, k, runnable - pending, invalidate)
    ensures var d := c.(started := c.started[w := WorkerKey(k, n, runnable[n])],
                        alive := if invalidate(n).StillRunning? then c.alive + {w} else c.alive);
            Launched(b, d, k, runnable - (pending - {n}), invalidate)
  {
    hide LaunchedOne;
    var names, more := runnable - pending, runnable - (pending - {n});
    var key := WorkerKey(k, n, runnable[n]);
    assert more == names[n := runnable[n]];
    var d := c.(started := c.started[w := key], alive := if invalidate(n).StillRunning? then c.alive + {w} else c.alive);
    EachNameLaunched(b, c, k, names, invalidate, key, w);
    forall v | v in d.started && v !in b.started
      ensures LaunchedOne(d, k, more, invalidate, v)
    {
      OneLaunched(c, d, k, names, invalidate, key, w, v);
    }
    NamesStayApart(b, c, k, names, invalidate, n, key, w);
  }

  lemma EachNameLaunched(b: Board, c: Board, k: TargetKey, names: map<string, nat>, invalidate: string -> Fate, key: WorkerKey,
                         w: nat)
    requires Launched(b, c, k, names, invalidate) && key.target == k && key.name !in names && w !in c.started
    ensures var started, more := c.started[w := key], names[key.name := key.instance];
            w !in b.started
            && forall m | m in more :: exists v :: v in started && v !in b.started && started[v] == WorkerKey(k, m, more[m])
  {
    hide LaunchedOne;
    var started, more := c.started[w := key], names[key.name := key.instance];
    assert w !in b.started;
    forall m | m in more
      ensures exists v :: v in started && v !in b.started && started[v] == WorkerKey(k, m, more[m])
    {
      if m == key.name {
        assert started[w] == WorkerKey(k, m, more[m]);
      } else {
        var v :| v in c.started && v !in b.started && c.started[v] == WorkerKey(k, m, names[m]);
        assert started[v] == WorkerKey(k, m, more[m]);
      }
    }
  }

  lemma OneLaunched(c: Board, d: Board, k: TargetKey, names: map<string, nat>, invalidate: string -> Fate, key: WorkerKey,
                    w: nat, v: nat)
    requires key.target == k && key.name !in names && w !in c.started && w !in c.alive && v in d.started
    requires d.started == c.started[w := key]
    requires d.alive == if invalidate(key.name).StillRunning? then c.alive + {w} else c.alive
    requires v != w ==> v in c.started && LaunchedOne(c, k, names, invalidate, v)
    ensures LaunchedOne(d, k, names[key.name := key.instance], invalidate, v)
  {
  }

  /** A worker for a name not launched before shares its name with no other new worker. */
  lemma NamesStayApart(b: Board, c: Board, k: TargetKey, names: map<string, nat>, invalidate: string -> Fate, n: string,
                       key: WorkerKey, w: nat)
    requires Launched(b, c, k, names, invalidate) && n !in names && key.name == n && w !in c.started
    ensures var started := c.started[w := key];
            forall v, u | v in started && v !in b.started && u in started && u !in b.started && v != u ::
              started[v].name != started[u].name
  {
    forall v | v in c.started && v !in b.started
      ensures c.started[v].name != n
    {
      assert LaunchedOne(c, k, names, invalidate, v);
    }
  }

  lemma RecordOneMore(b: Board, c: Board, k: TargetKey, runnable: map<string, nat>, wedged: set<string>,
                      recorded: map<WorkerKey, nat>, n: string, w: nat, running: bool)
    requires Records(b, c, k, runnable, wedged, recorded) && n in runnable && n !in wedged
    requires w !in c.started && c.alive <= c.started.Keys && b.alive <= c.alive
    ensures var key := WorkerKey(k, n, runnable[n]);
            var d := c.(started := c.started[w := key], alive := if running then c.alive + {w} else c.alive);
            Records(b, d, k, runnable, if running then wedged + {n} else wedged, if running then recorded[key := w] else recorded)
  {
  }

  /** Phase 1 of an emit that has yet to run the names of `pending`. */
  ghost predicate Progress(b: Board, c: Board, k: TargetKey, runnable: map<string, nat>, pending: set<string>,
                           invalidate: string -> Fate, wedged: set<string>, errors: map<string, EmitError>,
                           recorded: map<WorkerKey, nat>)
  {
    && b.alive <= c.alive <= c.started.Keys
    && Launched(b, c, k, runnable - pending, invalidate) && Records(b, c, k, runnable, wedged, recorded)
    && wedged == Stuck(runnable, pending, invalidate) && errors == Raising(runnable, pending, invalidate)
  }

  lemma ProgressNone(b: Board, k: TargetKey, runnable: map<string, nat>, invalidate: string -> Fate)
    requires b.SingleFlight()
    ensures Progress(b, b, k, runnable, runnable.Keys, invalidate, {}, map[], map[])
  {
    assert runnable - runnable.Keys == map[];
    LaunchNone(b, k, invalidate);
    StuckNone(runnable, invalidate);
  }

  lemma ProgressOneMore(b: Board, c: Board, k: TargetKey, runnable: map<string, nat>, pending: set<string>, n: string,
                        invalidate: string -> Fate, wedged: set<string>, errors: map<string, EmitError>,
                        recorded: map<WorkerKey, nat>, w: nat)
    requires n in pending && pending <= runnable.Keys && w !in c.started
    requires Progress(b, c, k, runnable, pending, invalidate, wedged, errors, recorded)
    ensures var key := WorkerKey(k, n, runnable[n]); var running := invalidate(n).StillRunning?;
            Progress(b, c.(started := c.started[w := key], alive := if running then c.alive + {w} else c.alive),
                     k, runnable, pending - {n}, invalidate,
                     if running then wedged + {n} else wedged,
                     if invalidate(n).Raised? then errors[n := InvalidateRaised] else errors,
                     if running then recorded[key := w] else recorded)
  {
    assert n !in wedged;
    hide Launched, Records, Stuck, Raising;
    LaunchOneMore(b, c, k, runnable, pending, n, invalidate, w);
    RecordOneMore(b, c, k, runnable, wedged, recorded, n, w, invalidate(n).StillRunning?);
    StuckOneMore(runnable, pending, n, invalidate);
  }

  lemma ProgressDone(b: Board, c: Board, k: TargetKey, runnable: map<string, nat>, invalidate: string -> Fate,
                     wedged: set<string>, errors: map<string, EmitError>, recorded: map<WorkerKey, nat>)
    requires b.SingleFlight() && c.overdue == b.overdue
    requires forall n | n in runnable :: WorkerKey(k, n, runnable[n]) !in b.overdue
    requires Progress(b, c, k, runnable, {}, invalidate, wedged, errors, recorded)
    ensures var d := c.(overdue := c.overdue + recorded);
            && d.SingleFlight() && Launched(b, d, k, runnable, invalidate) && Records(b, d, k, runnable, wedged, recorded)
            && wedged == Stuck(runnable, {}, invalidate) && errors == Raising(runnable, {}, invalidate)
  {
    assert runnable - {} == runnable;
    RecordedSingleFlight(b, c, k, runnable, wedged, recorded, invalidate);
    RecordsKeyed(b, c, c.(overdue := c.overdue + recorded), k, runnable, wedged, recorded, invalidate);
  }

  /** Once the new records are in the table, every live worker is the recorded one again. */
  lemma RecordedSingleFlight(b: Board, c: Board, k: TargetKey, runnable: map<string, nat>, wedged: set<string>,
                             recorded: map<WorkerKey, nat>, invalidate: string -> Fate)
    requires b.SingleFlight() && c.overdue == b.overdue && Launched(b, c, k, runnable, invalidate)
    requires Records(b, c, k, runnable, wedged, recorded)
    requires forall n | n in runnable :: WorkerKey(k, n, runnable[n]) !in b.overdue
    ensures c.(overdue := c.overdue + recorded).SingleFlight()
  {
  }

  lemma RecordsKeyed(b: Board, c: Board, d: Board, k: TargetKey, runnable: map<string, nat>, wedged: set<string>,
                     recorded: map<WorkerKey, nat>, invalidate: string -> Fate)
    requires d == c.(overdue := d.overdue)
    ensures Records(b, c, k, runnable, wedged, recorded) ==> Records(b, d, k, runnable, wedged, recorded)
    ensures Launched(b, c, k, runnable, invalidate) ==> Launched(b, d, k, runnable, invalidate)
  {
  }

  /** Workers end on their own; subscriptions come and go. */
  ghost predicate BackgroundStep(b: Board, c: Board) {
    c.overdue == b.overdue && c.started == b.started && c.alive <= b.alive
  }

  class InProcessLifecycleDispatcher {
    var subscribers: map<TargetKey, map<string, nat>>
    var overdue: map<WorkerKey, nat>
    var alive: set<nat>
    var spawned: nat
    ghost var started: map<nat, WorkerKey>

    ghost function View(): Board
      reads this
    {
      Board(subscribers, overdue, alive, started)
    }

    ghost predicate Valid()
      reads this
    {
      View().SingleFlight() && Numbered()
    }

    /** Workers are numbered in the order they were started. */
    ghost predicate Numbered()
      reads `spawned, `started
    {
      forall w: nat :: w in started <==> w < spawned
    }

    constructor ()
      ensures Valid() && View() == Board(map[], map[], {}, map[])
    {
      subscribers, overdue, alive, spawned := map[], map[], {}, 0;
      started := map[];
    }

    method Subscribe(k: TargetKey, name: string, instance: nat)
      requires Valid()
      modifies `subscribers
      ensures Valid() && View().Targeted(k) == old(View()).Targeted(k)[name := instance]
      ensures forall other | other != k :: View().Targeted(other) == old(View()).Targeted(other)
    {
      subscribers := subscribers[k := (if k in subscribers then subscribers[k] else map[])[name := instance]];
    }

    method Unsubscribe(k: TargetKey, name: string)
      requires Valid()
      modifies `subscribers
      ensures Valid() && View().Targeted(k) == old(View()).Targeted(k) - {name}
      ensures forall other | other != k :: View().Targeted(other) == old(View()).Targeted(other)
    {
      if k in subscribers {
        subscribers := subscribers[k := subscribers[k] - {name}];
      }
    }

    /** A wedged worker comes back. */
    method Exit(w: nat)
      requires Valid()
      modifies `alive
      ensures Valid() && View() == old(View()).(alive := old(alive) - {w})
    {
      alive := alive - {w};
    }

    method PruneOverdue()
      requires Valid()
      modifies `overdue
      ensures Valid()
      ensures forall key :: Lookup(overdue, key) == if old(View()).Wedged(key) then Some(old(overdue)[key]) else None
    {
      overdue := map key | key in overdue && overdue[key] in alive :: overdue[key];
    }

    lemma Unstarted()
      requires Numbered()
      ensures spawned !in started
    {
    }

    method StartWorker(key: WorkerKey, fate: Fate) returns (w: nat)
      requires Numbered()
      modifies `alive, `spawned, `started
      ensures Numbered() && w == old(spawned)
      ensures View() == old(View()).(started := old(started)[w := key],
                                     alive := if fate.StillRunning? then old(alive) + {w} else old(alive))
    {
      w := spawned;
      spawned := spawned + 1;
      started := started[w := key];
      if fate.StillRunning? {
        alive := alive + {w};
      }
    }

    /** Phase 1: a worker for each name, all joined under one deadline; those still alive are recorded afterwards. */
    method RunInvalidates(k: TargetKey, runnable: map<string, nat>, invalidate: string -> Fate)
      returns (wedged: set<string>, errors: map<string, EmitError>)
      requires Valid()
      requires forall n | n in runnable :: WorkerKey(k, n, runnable[n]) !in overdue
      modifies `overdue, `alive, `spawned, `started
      ensures Valid() && Launched(old(View()), View(), k, runnable, invalidate)
      ensures wedged == Stuck(runnable, {}, invalidate) && errors == Raising(runnable, {}, invalidate)
      ensures exists recorded: map<WorkerKey, nat> ::
                Records(old(View()), View(), k, runnable, wedged, recorded) && overdue == old(overdue) + recorded
    {
      hide Progress, Launched, Records, Stuck, Raising, Board.SingleFlight, Numbered;
      ghost var b := View();
      var recorded: map<WorkerKey, nat> := map[];
      ProgressNone(b, k, runnable, invalidate);
      wedged, errors := {}, map[];
      var pending := runnable.Keys;
      while pending != {}
        invariant pending <= runnable.Keys && overdue == b.overdue
        invariant Numbered() && Progress(b, View(), k, runnable, pending, invalidate, wedged, errors, recorded)
        decreases |pending|
      {
        var n :| n in pending;
        var key := WorkerKey(k, n, runnable[n]);
        Unstarted();
        ProgressOneMore(b, View(), k, runnable, pending, n, invalidate, wedged, errors, recorded, spawned);
        pending := pending - {n};
        var w := StartWorker(key, invalidate(n));
        wedged := if invalidate(n).StillRunning? then wedged + {n} else wedged;
        errors := if invalidate(n).Raised? then errors[n := InvalidateRaised] else errors;
        recorded := if invalidate(n).StillRunning? then recorded[key := w] else recorded;
      }
      ProgressDone(b, View(), k, runnable, invalidate, wedged, errors, recorded);
      overdue := overdue + recorded;
    }

    /** Phase 2: force_drop for each name that overran. */
    method ForceDropNewlyOverdue(wedged: set<string>, drop: string -> Fate)
      returns (dropped: set<string>, errors: map<string, EmitError>)
      ensures dropped == set n | n in wedged && drop(n).Finished?
      ensures errors.Keys == wedged && forall n | n in wedged :: Some(errors[n]) == Verdict(false, StillRunning, drop(n))
      ensures forall n | n in wedged ::
                && (errors[n] == Exceeded <==> drop(n) == Finished) && (errors[n] == ForceDropRaised <==> drop(n) == Raised)
                && (errors[n] == BothExceeded <==> drop(n) == StillRunning)
    {
      dropped, errors := {}, map n | n in wedged :: Exceeded;
      var pending := wedged;
      while pending != {}
        invariant pending <= wedged
        invariant dropped == set n | n in wedged && n !in pending && drop(n).Finished?
        invariant errors.Keys == wedged
        invariant forall n | n in wedged :: Some(errors[n]) == if n in pending then Some(Exceeded) else Verdict(false, StillRunning, drop(n))
        decreases |pending|
      {
        var n :| n in pending;
        pending := pending - {n};
        match drop(n) {
          case StillRunning =>
            errors := errors[n := BothExceeded];
          case Raised =>
            errors := errors[n := ForceDropRaised];
          case Finished =>
            dropped := dropped + {n};
        }
      }
    }

    /** Every targeted subscriber gets exactly one verdict, and the transition always completes. */
    method Emit(k: TargetKey, invalidate: string -> Fate, drop: string -> Fate) returns (r: InvalidationResult)
      requires Valid()
      modifies `overdue, `alive, `spawned, `started
      ensures Valid() && EmitStep(old(View()), View(), k, invalidate)
      ensures Accounts(old(View()), k, invalidate, drop, r)
    {
      hide Launched, Records, EmitStep, Accounts, Runnable, Stuck, Raising, Verdict, Board.SingleFlight;
      ghost var b := View();
      PruneOverdue();
      ghost var p := View();
      var targeted := if k in subscribers then subscribers[k] else map[];
      var already := set n | n in targeted && WorkerKey(k, n, targeted[n]) in overdue;
      var runnable := targeted - already;
      RunnableAfterPrune(b, p, k, already);
      var wedged, raised := RunInvalidates(k, runnable, invalidate);
      var dropped, exceeded := ForceDropNewlyOverdue(wedged, drop);
      r := InvalidationResult((map n | n in already :: StillOverdue) + raised + exceeded, already + wedged, dropped);
      EmitSteps(b, p, View(), k, wedged, invalidate);
      EmitAccounts(b, k, invalidate, drop, already, dropped, exceeded, r);
    }
  }

  lemma LaunchedFrom(b: Board, p: Board, c: Board, k: TargetKey, names: map<string, nat>, invalidate: string -> Fate)
    requires p == b.(overdue := p.overdue) && Launched(p, c, k, names, invalidate)
    ensures Launched(b, c, k, names, invalidate) && b.alive <= c.alive
    ensures forall w | w in c.alive && w !in b.alive :: w in c.started
  {
  }

  lemma RunnableAfterPrune(b: Board, p: Board, k: TargetKey, already: set<string>)
    requires forall key :: Lookup(p.overdue, key) == if b.Wedged(key) then Some(b.overdue[key]) else None
    requires already == set n | n in b.Targeted(k) && WorkerKey(k, n, b.Targeted(k)[n]) in p.overdue
    ensures already == set n | n in b.Targeted(k) && b.Wedged(WorkerKey(k, n, b.Targeted(k)[n]))
    ensures b.Targeted(k) - already == Runnable(b, k)
    ensures forall n | n in Runnable(b, k) :: WorkerKey(k, n, Runnable(b, k)[n]) !in p.overdue
  {
    assert forall key :: b.Wedged(key) <==> key in p.overdue;
  }

  lemma EmitSteps(b: Board, p: Board, c: Board, k: TargetKey, wedged: set<string>, invalidate: string -> Fate)
    requires p == b.(overdue := p.overdue) && b.SingleFlight()
    requires forall key :: Lookup(p.overdue, key) == if b.Wedged(key) then Some(b.overdue[key]) else None
    requires Launched(p, c, k, Runnable(b, k), invalidate)
    requires exists recorded: map<WorkerKey, nat> ::
               Records(p, c, k, Runnable(b, k), wedged, recorded) && c.overdue == p.overdue + recorded
    ensures EmitStep(b, c, k, invalidate)
  {
    LaunchedFrom(b, p, c, k, Runnable(b, k), invalidate);
    var recorded: map<WorkerKey, nat> :|
      Records(p, c, k, Runnable(b, k), wedged, recorded) && c.overdue == p.overdue + recorded;
    RecordedAreNew(b, p, c, k, wedged, recorded);
    hide Launched, Records, Runnable;
  }

  lemma RecordedAreNew(b: Board, p: Board, c: Board, k: TargetKey, wedged: set<string>, recorded: map<WorkerKey, nat>)
    requires p == b.(overdue := p.overdue) && b.alive <= c.alive
    requires forall key :: Lookup(p.overdue, key) == if b.Wedged(key) then Some(b.overdue[key]) else None
    requires Records(p, c, k, Runnable(b, k), wedged, recorded) && c.overdue == p.overdue + recorded
    ensures forall key | b.Wedged(key) :: key in c.overdue && c.overdue[key] == b.overdue[key]
    ensures forall w | w in c.alive && w !in b.alive :: w in c.started && c.started[w] in c.overdue && c.overdue[c.started[w]] == w
    ensures forall key | key in c.overdue :: c.overdue[key] in c.alive
  {
    forall key | key in recorded
      ensures !b.Wedged(key)
    {
    }
    forall key | b.Wedged(key)
      ensures key in c.overdue && c.overdue[key] == b.overdue[key]
    {
      assert Lookup(p.overdue, key) == Some(b.overdue[key]);
    }
    forall key | key in c.overdue
      ensures c.overdue[key] in c.alive
    {
      assert key in recorded || Lookup(p.overdue, key) == Some(b.overdue[key]);
    }
  }

  lemma EmitAccounts(b: Board, k: TargetKey, invalidate: string -> Fate, drop: string -> Fate, already: set<string>,
                     dropped: set<string>, exceeded: map<string, EmitError>, r: InvalidationResult)
    requires already == set n | n in b.Targeted(k) && b.Wedged(WorkerKey(k, n, b.Targeted(k)[n]))
    requires var wedged := Stuck(Runnable(b, k), {}, invalidate);
             && dropped == (set n | n in wedged && drop(n).Finished?)
             && exceeded.Keys == wedged
             && (forall n | n in wedged :: Some(exceeded[n]) == Verdict(false, StillRunning, drop(n)))
             && r == InvalidationResult((map n | n in already :: StillOverdue) + Raising(Runnable(b, k), {}, invalidate) + exceeded,
                                        already + wedged, dropped)
    ensures Accounts(b, k, invalidate, drop, r)
  {
  }

  /** The result splits the targeted subscribers into clean, still overdue, raised, force-dropped and failed twice. */
  ghost predicate Accounts(b: Board, k: TargetKey, invalidate: string -> Fate, drop: string -> Fate, r: InvalidationResult) {
    forall n ::
      if n !in b.Targeted(k) then n !in r.errors && n !in r.overdue && n !in r.forceDropped
      else
        var wedged := b.Wedged(WorkerKey(k, n, b.Targeted(k)[n]));
        var overran := !wedged && invalidate(n) == StillRunning;
        && (n !in r.errors <==> !wedged && invalidate(n) == Finished)
        && (Lookup(r.errors, n) == Some(StillOverdue) <==> wedged)
        && (Lookup(r.errors, n) == Some(InvalidateRaised) <==> !wedged && invalidate(n) == Raised)
        && (Lookup(r.errors, n) == Some(Exceeded) <==> overran && drop(n) == Finished)
        && (Lookup(r.errors, n) == Some(ForceDropRaised) <==> overran && drop(n) == Raised)
        && (Lookup(r.errors, n) == Some(BothExceeded) <==> overran && drop(n) == StillRunning)
        && (n in r.overdue <==> wedged || overran)
        && (n in r.forceDropped <==> overran && drop(n) == Finished)
  }

  // ----- over whole runs

  ghost predicate Turn(b: Board, c: Board) {
    BackgroundStep(b, c) || exists k: TargetKey, invalidate: string -> Fate :: EmitStep(b, c, k, invalidate)
  }

  lemma EmitKeepsSingleFlight(b: Board, c: Board, k: TargetKey, invalidate: string -> Fate)
    requires b.SingleFlight() && EmitStep(b, c, k, invalidate)
    ensures c.SingleFlight()
  {
  }

  /**
    Over any sequence of emits for any targets, with workers ending and subscriptions changing in
    between, no instance ever has two live invalidate workers.
   */
  lemma {:induction false} OneLiveWorkerPerInstance(boards: seq<Board>, i: nat, w: nat, v: nat)
    requires i < |boards| && boards[0].SingleFlight()
    requires forall j | 0 < j < |boards| :: Turn(boards[j - 1], boards[j])
    ensures boards[i].SingleFlight()
    ensures w in boards[i].alive && v in boards[i].alive && boards[i].started[w] == boards[i].started[v] ==> w == v
    decreases i
  {
    if i > 0 {
      OneLiveWorkerPerInstance(boards, i - 1, w, v);
      if !BackgroundStep(boards[i - 1], boards[i]) {
        var k: TargetKey, invalidate: string -> Fate :| EmitStep(boards[i - 1], boards[i], k, invalidate);
        EmitKeepsSingleFlight(boards[i - 1], boards[i], k, invalidate);
      }
    }
  }

  lemma EmitSparesWedged(b: Board, c: Board, k: TargetKey, invalidate: string -> Fate, key: WorkerKey)
    requires EmitStep(b, c, k, invalidate) && b.Wedged(key)
    ensures forall w | w in b.started :: w in c.started && c.started[w] == b.started[w]
    ensures forall w | w in c.started && c.started[w] == key :: w in b.started
  {
  }

  /** As long as an instance's worker stays wedged, emits start no further worker for it. */
  lemma {:induction false} WedgedInstanceGetsNoMoreWorkers(boards: seq<Board>, i: nat, w: nat, v: nat)
    requires i < |boards| && boards[0].SingleFlight() && w in boards[0].alive
    requires forall j | 0 < j < |boards| :: Turn(boards[j - 1], boards[j])
    requires forall j | 0 <= j < |boards| :: w in boards[j].alive
    ensures w in boards[i].started && boards[i].started[w] == boards[0].started[w]
    ensures v in boards[i].started && boards[i].started[v] == boards[0].started[w] ==> v in boards[0].started
    decreases i
  {
    if i > 0 {
      hide EmitStep, Launched;
      WedgedInstanceGetsNoMoreWorkers(boards, i - 1, w, v);
      OneLiveWorkerPerInstance(boards, i - 1, w, v);
      if !BackgroundStep(boards[i - 1], boards[i]) {
        var k: TargetKey, invalidate: string -> Fate :| EmitStep(boards[i - 1], boards[i], k, invalidate);
        assert boards[i - 1].Wedged(boards[0].started[w]);
        EmitSparesWedged(boards[i - 1], boards[i], k, invalidate, boards[0].started[w]);
      }
    }
  }
}
