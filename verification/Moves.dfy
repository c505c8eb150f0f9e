/** Every step of the scheduler is a chain of a few primitive moves, each made only when
    its side condition holds.  What the moves keep, the steps keep. */
module Moves {
  import opened Text
  import opened Config
  import opened Machine
  import opened Invariants
  import opened Steps

  datatype Move =
    | Mark(id: string, o: Oracle)
    | Sleep(id: string)
    | Evict(id: string)
    | Stop(id: string)
    | Adopt(id: string)
    | Forget(id: string)
    | Free(id: string, o: Oracle)
    | Put(id: string, started: bool)
    | Again(id: string)
    | Clear
    | Kill(proc: nat)
    | Book(to: State)

  ghost function Do(cfg: Scheduling, st: State, m: Move): State {
    match m
    case Mark(id, o) => MarkReady(cfg, st, id, o)
    case Sleep(id) => if id in st.procs then Suspend(st, id) else st
    case Evict(id) => if id in st.procs then Suspend(st, id) else st
    case Stop(id) => if id in st.procs then Stopped(st, id) else st
    case Adopt(id) => if id in st.procs then Adopted(st, id) else st
    case Forget(id) => if id in st.procs then Forgotten(st, id) else st
    case Free(id, o) => FreePort(cfg, st, id, o)
    case Put(id, started) => Place(st, id, started)
    case Again(id) => if id in st.procs then Rerun(st, id) else st
    case Clear => StopAll(cfg, st)
    case Kill(p) => st.(live := st.live - {p})
    case Book(to) => to
  }

  /** Events that may switch the whole state. */
  predicate Switches(ev: Event) {
    ev.Start? || ev.Ask? || ev.Recovered? || ev.LeaseTick?
  }

  /** Events launch members of the startup set and the model they ask for. */
  predicate MayPut(cfg: Scheduling, ev: Event, id: string) {
    InGroup(cfg, id) || (ev.Ask? && ev.id == id)
  }

  /** Members start whatever their failures, others outside their backoff window. */
  predicate Timely(cfg: Scheduling, st: State, id: string) {
    InGroup(cfg, id) || !BackoffActive(st, id)
  }

  /** Does launching id start its command? */
  predicate Starts(cfg: Scheduling, id: string, o: Oracle) {
    At(cfg, id).command != "" && id in o.starts
  }

  /** The side condition under which step ev makes move m in state st. */
  ghost predicate Fine(cfg: Scheduling, ev: Event, st: State, m: Move) {
    match m
    case Mark(id, o) => !Asleep(st, id)
    case Sleep(id) => ev.Visited? && ev.id == id && SleepsNow(cfg, st, id)
    case Evict(id) =>
      Runs(st, id) && At(cfg, id).mode == Background && !At(cfg, id).resident && At(cfg, id).gpu != ""
    case Stop(id) => Reaps(cfg, ev, st, id) && !Listens(cfg, st, id, st.procs[id], ev.o)
    case Adopt(id) => Reaps(cfg, ev, st, id) && Listens(cfg, st, id, st.procs[id], ev.o)
    case Forget(id) =>
      ev.Visited? && ev.id == id && id in st.procs && !Asleep(st, id) && st.procs[id].cmd == 0 && !st.procs[id].readyOK
    case Free(id, o) =>
      && Known(cfg, id) && At(cfg, id).command != "" && Beside(cfg, st, id)
      && (id in st.procs || MayPut(cfg, ev, id))
    case Put(id, started) =>
      && Known(cfg, id) && !Runs(st, id) && GPUFree(cfg, st, id)
      && (Asleep(st, id) ==> ev.Ask? && ev.id == id)
      && MayPut(cfg, ev, id)
      && (started ==> At(cfg, id).command != "" && Timely(cfg, st, id))
      && Switches(ev)
    case Again(id) =>
      && id in st.procs && !Runs(st, id)
      && (Asleep(st, id) ==> ev.Ask? && ev.id == id)
      && !BackoffActive(st, id)
      && At(cfg, id).mode == Background && At(cfg, id).command != "" && GPUFree(cfg, st, id)
    case Clear => Switches(ev)
    case Kill(p) => ev.Exited? && ev.proc == p
    case Book(to) => SameSlots(st, to) && Books(ev, st, to)
  }

  /** id has an idle clock: it was asked for, or became ready, at some time. */
  predicate Anchored(st: State, id: string) {
    id in st.lastActiveAt && 0 < st.lastActiveAt[id] <= st.now
  }

  ghost predicate ClocksPast(st: State) {
    forall id | id in st.lastActiveAt :: st.lastActiveAt[id] <= st.now
  }

  /** What a change of the tables, the clock and the registered switch may do: history
      stays, idle clocks are not lost, the coding model changes in switches only, and a
      backoff window opens for stopped models only. */
  ghost predicate Books(ev: Event, st: State, to: State) {
    && to.freed == st.freed && to.now >= st.now
    && (st.now > 0 ==> forall id :: Anchored(st, id) ==> Anchored(to, id))
    && (ClocksPast(st) ==> ClocksPast(to))
    && (to.codingModel == st.codingModel || Switches(ev))
    && (to.inflight == st.inflight || ev.Entered? || ev.Left?)
    && (BackoffOK(st) ==> BackoffOK(to))
    && forall id :: BackoffActive(to, id) ==> BackoffActive(st, id) || !Runs(st, id)
  }

  ghost predicate Reaps(cfg: Scheduling, ev: Event, st: State, id: string) {
    ev.Reaped? && ev.id == id && ev.proc != 0 && id in st.procs && st.procs[id].cmd == ev.proc
  }

  /** st' is what the moves ms make of st, each of them fine when made. */
  ghost predicate Chain(cfg: Scheduling, ev: Event, st: State, ms: seq<Move>, st': State)
    decreases |ms|
  {
    if ms == [] then st' == st
    else Fine(cfg, ev, st, ms[0]) && Chain(cfg, ev, Do(cfg, st, ms[0]), ms[1..], st')
  }

  lemma {:induction false} Join(cfg: Scheduling, ev: Event, a: State, ms: seq<Move>, b: State, ns: seq<Move>, c: State)
    requires Chain(cfg, ev, a, ms, b) && Chain(cfg, ev, b, ns, c)
    ensures Chain(cfg, ev, a, ms + ns, c)
    decreases |ms|
  {
    if ms == [] {
      assert ms + ns == ns;
    } else {
      Join(cfg, ev, Do(cfg, a, ms[0]), ms[1..], b, ns, c);
      assert (ms + ns)[0] == ms[0] && (ms + ns)[1..] == ms[1..] + ns;
    }
  }

  lemma One(cfg: Scheduling, ev: Event, st: State, m: Move)
    requires Fine(cfg, ev, st, m)
    ensures Chain(cfg, ev, st, [m], Do(cfg, st, m))
  {
    assert [m][1..] == [];
  }

  lemma Then(cfg: Scheduling, ev: Event, a: State, ms: seq<Move>, b: State, m: Move)
    requires Chain(cfg, ev, a, ms, b) && Fine(cfg, ev, b, m)
    ensures Chain(cfg, ev, a, ms + [m], Do(cfg, b, m))
  {
    One(cfg, ev, b, m);
    Join(cfg, ev, a, ms, b, [m], Do(cfg, b, m));
  }

  // The compound operations, as chains.

  lemma AcquireMoves(cfg: Scheduling, ev: Event, st: State, id: string, o: Oracle) returns (ms: seq<Move>)
    requires Good(cfg) && Inv(cfg, st) && Acquire(cfg, st, id, o).Some?
    requires Known(cfg, id) && (CodingRunning(cfg, st) ==> Survives(cfg, id))
    ensures Chain(cfg, ev, st, ms, Acquire(cfg, st, id, o).value)
  {
    ms := [];
    if At(cfg, id).gpu != "" && Owners(cfg, st, id) != {} {
      var v := FirstOwner(cfg, st, id, o);
      ArbitrationSparesCoding(cfg, st, id);
      ms := [Evict(v)];
      One(cfg, ev, st, Evict(v));
    }
  }

  /** Nothing acquireGPU does to other slots changes whether id is down, asleep or backing off. */
  lemma AcquireKeeps(cfg: Scheduling, st: State, id: string, o: Oracle)
    requires Core(cfg, st) && Acquire(cfg, st, id, o).Some?
    ensures var s1 := Acquire(cfg, st, id, o).value;
      && (Asleep(s1, id) ==> Asleep(st, id)) && (BackoffActive(s1, id) ==> BackoffActive(st, id))
  {
  }

  /** A background model may run beside what is left once its GPU is acquired. */
  lemma AcquireBeside(cfg: Scheduling, st: State, id: string, o: Oracle)
    requires Good(cfg) && Inv(cfg, st) && Acquire(cfg, st, id, o).Some?
    requires At(cfg, id).mode == Background && (CodingRunning(cfg, st) ==> Survives(cfg, id))
    ensures Beside(cfg, Acquire(cfg, st, id, o).value, id)
  {
    AcquireCore(cfg, st, id, o);
  }

  lemma RelaunchMoves(cfg: Scheduling, ev: Event, st: State, id: string, o: Oracle) returns (ms: seq<Move>)
    requires Core(cfg, st) && Fine(cfg, ev, st, Again(id)) && Known(cfg, id) && Beside(cfg, st, id)
    ensures Chain(cfg, ev, st, ms, Relaunch(cfg, st, id, o))
  {
    ms := [Free(id, o)];
    One(cfg, ev, st, Free(id, o));
    if id in o.starts {
      FreePortCore(cfg, st, id, o);
      Then(cfg, ev, st, ms, FreePort(cfg, st, id, o), Again(id));
      ms := ms + [Again(id)];
    }
  }

  /** A slot that is due for a restart may run beside whatever coding process runs. */
  lemma RestartGuarded(cfg: Scheduling, st: State, id: string)
    requires Inv(cfg, st) && NeedRestart(cfg, st, id)
    ensures Known(cfg, id) && (CodingRunning(cfg, st) ==> Survives(cfg, id))
  {
    if CodingRunning(cfg, st) {
      BesideCoding(cfg, st, id);
    }
  }

  /** Once its card is acquired it may be started again. */
  lemma MayRelaunch(cfg: Scheduling, ev: Event, st: State, id: string, o: Oracle)
    requires Core(cfg, st) && NeedRestart(cfg, st, id) && Acquire(cfg, st, id, o).Some?
    requires Asleep(st, id) ==> ev.Ask? && ev.id == id
    ensures var s1 := Acquire(cfg, st, id, o).value; Core(cfg, s1) && Fine(cfg, ev, s1, Again(id))
  {
    AcquireCore(cfg, st, id, o);
    AcquireKeeps(cfg, st, id, o);
  }

  lemma RestartMoves(cfg: Scheduling, ev: Event, st: State, id: string, o: Oracle) returns (ms: seq<Move>)
    requires Good(cfg) && Inv(cfg, st)
    requires Asleep(st, id) ==> ev.Ask? && ev.id == id
    ensures Chain(cfg, ev, st, ms, Restart(cfg, st, id, o))
  {
    hide Relaunch, CodingOK, FlightOK, CodingRunning, Runs, Acquire, Fine;
    ms := [];
    if NeedRestart(cfg, st, id) && Acquire(cfg, st, id, o).Some? {
      RestartGuarded(cfg, st, id);
      var s1 := Acquire(cfg, st, id, o).value;
      var ms0 := AcquireMoves(cfg, ev, st, id, o);
      AcquireBeside(cfg, st, id, o);
      MayRelaunch(cfg, ev, st, id, o);
      var ms1 := RelaunchMoves(cfg, ev, s1, id, o);
      Join(cfg, ev, st, ms0, s1, ms1, Relaunch(cfg, s1, id, o));
      ms := ms0 + ms1;
    }
  }

  lemma LaunchMoves(cfg: Scheduling, ev: Event, st: State, id: string, o: Oracle) returns (ms: seq<Move>)
    requires Core(cfg, st) && Fine(cfg, ev, st, Put(id, false)) && Beside(cfg, st, id)
    requires Starts(cfg, id, o) ==> Timely(cfg, st, id)
    ensures Chain(cfg, ev, st, ms, Launch(cfg, st, id, o))
  {
    if At(cfg, id).command == "" {
      ms := [Put(id, false)];
      One(cfg, ev, st, ms[0]);
    } else {
      One(cfg, ev, st, Free(id, o));
      FreePortCore(cfg, st, id, o);
      Then(cfg, ev, st, [Free(id, o)], FreePort(cfg, st, id, o), Put(id, id in o.starts));
      ms := [Free(id, o)] + [Put(id, id in o.starts)];
    }
  }

  lemma TargetTables(cfg: Scheduling, st: State, id: string, o: Oracle)
    ensures Target(cfg, st, id, o).nextRestartAt == st.nextRestartAt && Target(cfg, st, id, o).now == st.now
  {
    hide Runs, Launch;
    LaunchTables(cfg, st, id, o);
  }

  lemma LaunchTables(cfg: Scheduling, st: State, id: string, o: Oracle)
    ensures Launch(cfg, st, id, o).nextRestartAt == st.nextRestartAt && Launch(cfg, st, id, o).now == st.now
  {
    hide FreePort, At;
    FreePortTables(cfg, st, id, o);
  }

  lemma FreePortTables(cfg: Scheduling, st: State, id: string, o: Oracle)
    ensures FreePort(cfg, st, id, o).nextRestartAt == st.nextRestartAt && FreePort(cfg, st, id, o).now == st.now
  {
  }

  lemma TargetMoves(cfg: Scheduling, ev: Event, st: State, id: string, o: Oracle) returns (ms: seq<Move>)
    requires Core(cfg, st) && Switches(ev) && Known(cfg, id) && Beside(cfg, st, id) && MayPut(cfg, ev, id)
    requires Starts(cfg, id, o) ==> Timely(cfg, st, id)
    ensures Chain(cfg, ev, st, ms, Target(cfg, st, id, o))
  {
    if Runs(st, id) || Asleep(st, id) {
      ms := [];
      assert Target(cfg, st, id, o) == st.(expected := st.expected + {id}) == st;
    } else {
      BesideIsFree(cfg, st, id);
      ms := LaunchMoves(cfg, ev, st, id, o);
    }
  }

  lemma {:induction false} TargetsMoves(cfg: Scheduling, ev: Event, st: State, ids: seq<string>, o: Oracle) returns (ms: seq<Move>)
    requires Core(cfg, st) && Switches(ev) && Launchable(cfg, st, ids)
    requires forall id :: id in ids ==> MayPut(cfg, ev, id) && (Starts(cfg, id, o) ==> Timely(cfg, st, id))
    ensures Chain(cfg, ev, st, ms, Targets(cfg, st, ids, o))
    decreases |ids|
  {
    ms := [];
    if ids != [] {
      var s1 := Target(cfg, st, ids[0], o);
      assert ids[0] in ids;
      BesideIsFree(cfg, st, ids[0]);
      TargetCore(cfg, st, ids[0], o);
      TargetTables(cfg, st, ids[0], o);
      LaunchableRest(cfg, st, s1, ids);
      forall id | id in ids[1..] ensures MayPut(cfg, ev, id) && (Starts(cfg, id, o) ==> Timely(cfg, s1, id)) {
        assert id in ids;
      }
      var ms0 := TargetMoves(cfg, ev, st, ids[0], o);
      var ms1 := TargetsMoves(cfg, ev, s1, ids[1..], o);
      Join(cfg, ev, st, ms0, s1, ms1, Targets(cfg, s1, ids[1..], o));
      ms := ms0 + ms1;
    }
  }

  lemma RegisterMove(cfg: Scheduling, ev: Event, st: State, ids: seq<string>, mode: Mode)
    requires KeysOK(cfg, st) && Switches(ev) && ids != [] && forall id :: id in ids ==> id in st.procs
    ensures Fine(cfg, ev, st, Book(Register(st, ids, mode)))
  {
    assert Register(st, ids, mode).expected == st.expected;
  }

  lemma SwitchMoves(cfg: Scheduling, ev: Event, st: State, ids: seq<string>, mode: Mode, o: Oracle) returns (ms: seq<Move>)
    requires Good(cfg) && Core(cfg, st) && GoodTarget(cfg, ids, mode) && Switches(ev)
    requires forall id :: id in ids ==> MayPut(cfg, ev, id) && (Starts(cfg, id, o) ==> Timely(cfg, st, id))
    ensures Chain(cfg, ev, st, ms, SwitchTo(cfg, st, ids, mode, o))
  {
    var s0 := StopAll(cfg, st);
    var s1 := Targets(cfg, s0, ids, o);
    StopAllCore(cfg, st);
    StopAllLaunchable(cfg, st, ids, mode);
    TargetsCore(cfg, s0, ids, o);
    TargetsShape(cfg, s0, ids, o);
    One(cfg, ev, st, Clear);
    ms := TargetsMoves(cfg, ev, s0, ids, o);
    Join(cfg, ev, st, [Clear], s0, ms, s1);
    RegisterMove(cfg, ev, s1, ids, mode);
    Then(cfg, ev, st, [Clear] + ms, s1, Book(Register(s1, ids, mode)));
    ms := [Clear] + ms + [Book(Register(s1, ids, mode))];
  }

  lemma GroupSwitchMoves(cfg: Scheduling, ev: Event, st: State, o: Oracle) returns (ms: seq<Move>)
    requires Good(cfg) && Core(cfg, st) && IsGroup(cfg, o.group) && Switches(ev)
    ensures Chain(cfg, ev, st, ms, GroupSwitch(cfg, st, o))
  {
    ms := [];
    if o.group != [] {
      ms := SwitchMoves(cfg, ev, st, o.group, Background, o);
    }
  }

  lemma {:induction false} MarkAllMoves(cfg: Scheduling, ev: Event, st: State, ids: seq<string>, o: Oracle) returns (ms: seq<Move>)
    requires Inv(cfg, st) && st.flight.Switching? && forall id :: id in ids ==> id in st.flight.wait
    ensures Chain(cfg, ev, st, ms, MarkAll(cfg, st, ids, o))
    decreases |ids|
  {
    ms := [];
    if ids != [] {
      assert ids[0] in ids;
      MarkReadyInv(cfg, st, ids[0], o);
      One(cfg, ev, st, Mark(ids[0], o));
      ms := MarkAllMoves(cfg, ev, MarkReady(cfg, st, ids[0], o), ids[1..], o);
      Join(cfg, ev, st, [Mark(ids[0], o)], MarkReady(cfg, st, ids[0], o), ms, MarkAll(cfg, st, ids, o));
      ms := [Mark(ids[0], o)] + ms;
    }
  }

  lemma BookMoves(cfg: Scheduling, ev: Event, st: State, st': State) returns (ms: seq<Move>)
    requires SameSlots(st, st') && Books(ev, st, st')
    ensures Chain(cfg, ev, st, ms, st')
  {
    ms := [Book(st')];
    One(cfg, ev, st, ms[0]);
  }

  lemma PreemptMoves(cfg: Scheduling, ev: Event, st: State, mode: Mode, target: string) returns (ms: seq<Move>)
    requires BackoffOK(st)
    ensures Chain(cfg, ev, st, ms, Preempt(st, mode, target))
  {
    ms := BookMoves(cfg, ev, st, Preempt(st, mode, target));
  }

  lemma TouchMoves(cfg: Scheduling, ev: Event, st: State, id: string, mode: Mode) returns (ms: seq<Move>)
    ensures Chain(cfg, ev, st, ms, TouchFor(st, id, mode))
  {
    ms := BookMoves(cfg, ev, st, TouchFor(st, id, mode));
  }

  lemma EnsureCodingMoves(cfg: Scheduling, ev: Event, st: State, id: string, o: Oracle) returns (ms: seq<Move>)
    requires Good(cfg) && Inv(cfg, st) && Known(cfg, id) && id != "" && At(cfg, id).mode == Coding && ev.Ask? && ev.id == id
    ensures Chain(cfg, ev, st, ms, EnsureCoding(cfg, st, id, o).0)
  {
    ms := [];
    if Runs(st, id) || BackoffActive(st, id) {
    } else if st.flight != Idle {
      ms := PreemptMoves(cfg, ev, st, Coding, id);
    } else {
      ms := SwitchMoves(cfg, ev, st, [id], Coding, o);
    }
  }

  lemma LaunchAloneMoves(cfg: Scheduling, ev: Event, st: State, id: string, o: Oracle) returns (ms: seq<Move>)
    requires Core(cfg, st) && Fine(cfg, ev, st, Put(id, false)) && Beside(cfg, st, id)
    requires Starts(cfg, id, o) ==> Timely(cfg, st, id)
    ensures Chain(cfg, ev, st, ms, LaunchAlone(cfg, st, id, o))
  {
    hide Launch, Chain;
    var s1 := Launch(cfg, st, id, o);
    ms := LaunchMoves(cfg, ev, st, id, o);
    var book := BookMoves(cfg, ev, s1, AwaitAlone(s1, id));
    Join(cfg, ev, st, ms, s1, book, AwaitAlone(s1, id));
    ms := ms + book;
  }

  lemma AcquireAndLaunchMoves(cfg: Scheduling, ev: Event, st: State, id: string, o: Oracle) returns (ms: seq<Move>)
    requires Good(cfg) && Inv(cfg, st) && Known(cfg, id) && At(cfg, id).mode == Background
    requires CodingRunning(cfg, st) ==> Survives(cfg, id)
    requires ev.Ask? && ev.id == id && !Runs(st, id) && (Starts(cfg, id, o) ==> Timely(cfg, st, id))
    ensures Chain(cfg, ev, st, ms, AcquireAndLaunch(cfg, st, id, o).0)
  {
    ms := [];
    if Acquire(cfg, st, id, o).Some? {
      var s1 := Acquire(cfg, st, id, o).value;
      AcquireCore(cfg, st, id, o);
      AcquireBeside(cfg, st, id, o);
      AcquireKeeps(cfg, st, id, o);
      ms := AcquireMoves(cfg, ev, st, id, o);
      var rest := LaunchAloneMoves(cfg, ev, s1, id, o);
      Join(cfg, ev, st, ms, s1, rest, LaunchAlone(cfg, s1, id, o));
      ms := ms + rest;
    }
  }

  lemma EnsureOnDemandMoves(cfg: Scheduling, ev: Event, st: State, id: string, o: Oracle) returns (ms: seq<Move>)
    requires Good(cfg) && Inv(cfg, st) && Known(cfg, id) && At(cfg, id).mode == Background
    requires CodingRunning(cfg, st) ==> Survives(cfg, id)
    requires ev.Ask? && ev.id == id
    ensures Chain(cfg, ev, st, ms, EnsureOnDemand(cfg, st, id, o).0)
  {
    ms := [];
    if Runs(st, id) || BackoffActive(st, id) {
    } else if st.flight != Idle {
      ms := PreemptMoves(cfg, ev, st, Background, id);
    } else {
      ms := AcquireAndLaunchMoves(cfg, ev, st, id, o);
    }
  }

  lemma EnsureBackgroundMoves(cfg: Scheduling, ev: Event, st: State, id: string, o: Oracle) returns (ms: seq<Move>)
    requires Good(cfg) && Inv(cfg, st) && IsGroup(cfg, o.group)
    requires Known(cfg, id) && At(cfg, id).mode == Background
    requires CodingRunning(cfg, st) ==> Survives(cfg, id)
    requires ev.Ask? && ev.id == id
    ensures Chain(cfg, ev, st, ms, EnsureBackground(cfg, st, id, o).0)
  {
    ms := [];
    if !InGroup(cfg, id) {
      ms := EnsureOnDemandMoves(cfg, ev, st, id, o);
    } else if id in st.procs && (At(cfg, id).resident || st.codingModel == "") {
      if !Runs(st, id) && st.flight == Idle {
        ms := RestartMoves(cfg, ev, st, id, o);
      }
    } else if !(st.codingModel != "" && LeaseActive(cfg, st)) && st.flight == Idle {
      ms := GroupSwitchMoves(cfg, ev, st, o);
    }
  }

  lemma GuardedMoves(cfg: Scheduling, ev: Event, st: State, id: string, o: Oracle) returns (ms: seq<Move>)
    requires Good(cfg) && Inv(cfg, st) && IsGroup(cfg, o.group) && Known(cfg, id) && id != ""
    requires ev.Ask? && ev.id == id
    ensures Chain(cfg, ev, st, ms, Guarded(cfg, st, id, o).0)
  {
    KnownMode(cfg, id);
    ms := [];
    if At(cfg, id).mode == Coding {
      ms := EnsureCodingMoves(cfg, ev, st, id, o);
    } else if Survives(cfg, id) || !CodingRunning(cfg, st) {
      ms := EnsureBackgroundMoves(cfg, ev, st, id, o);
    }
  }

  lemma RequestMoves(cfg: Scheduling, ev: Event, st: State, id: string, o: Oracle) returns (ms: seq<Move>)
    requires Good(cfg) && Inv(cfg, st) && IsGroup(cfg, o.group)
    requires ev.Ask? && ev.id == id
    ensures Chain(cfg, ev, st, ms, Request(cfg, st, id, o).0)
  {
    ms := [];
    if Known(cfg, id) && id != "" && id != PROXY_MODEL_ID {
      var e := At(cfg, id);
      var s1 := TouchFor(st, id, e.mode);
      TouchInv(cfg, st, id, e.mode);
      ms := TouchMoves(cfg, ev, st, id, e.mode);
      RequestIsGuarded(cfg, st, id, o);
      var rest := GuardedMoves(cfg, ev, s1, id, o);
      Join(cfg, ev, st, ms, s1, rest, Guarded(cfg, s1, id, o).0);
      ms := ms + rest;
    }
  }

  lemma VisitGoneMoves(cfg: Scheduling, ev: Event, st: State, id: string, o: Oracle) returns (ms: seq<Move>)
    requires Good(cfg) && Inv(cfg, st) && Fine(cfg, ev, st, Forget(id))
    ensures Chain(cfg, ev, st, ms, VisitGone(cfg, st, id, o))
  {
    ms := [Forget(id)];
    One(cfg, ev, st, Forget(id));
    if At(cfg, id).mode == Background {
      ForgottenInv(cfg, st, id);
      ForgottenSteady(st, id);
      var rest := RestartMoves(cfg, ev, Forgotten(st, id), id, o);
      Join(cfg, ev, st, ms, Forgotten(st, id), rest, VisitGone(cfg, st, id, o));
      ms := ms + rest;
    }
  }

  lemma VisitMoves(cfg: Scheduling, ev: Event, st: State, id: string, o: Oracle) returns (ms: seq<Move>)
    requires Good(cfg) && Inv(cfg, st) && ev == Visited(id, o)
    ensures Chain(cfg, ev, st, ms, Visit(cfg, st, id, o))
  {
    ms := [];
    if id in st.procs && !st.procs[id].sleeping {
      if st.procs[id].readyOK {
        if SleepsNow(cfg, st, id) {
          ms := [Sleep(id)];
          One(cfg, ev, st, Sleep(id));
        }
      } else if At(cfg, id).readinessURL != "" {
        if Gone(cfg, st, id, o) {
          ms := VisitGoneMoves(cfg, ev, st, id, o);
        } else if id in o.probes {
          ms := [Mark(id, o)];
          One(cfg, ev, st, Mark(id, o));
        }
      }
    }
  }

  lemma RecordFailWindow(st: State, id: string, x: string)
    requires BackoffActive(RecordFail(st, id), x)
    ensures BackoffActive(st, x) || x == id
  {
  }

  lemma RecordFailHistory(st: State, id: string)
    ensures var st' := RecordFail(st, id);
      && st'.freed == st.freed && st'.lastActiveAt == st.lastActiveAt && st'.inflight == st.inflight
      && st'.now == st.now && st'.codingModel == st.codingModel
  {
  }

  lemma RecordFailBooks(ev: Event, st: State, id: string)
    requires !Runs(st, id)
    ensures SameSlots(st, RecordFail(st, id)) && Books(ev, st, RecordFail(st, id))
  {
    hide RecordFail, BackoffOK, Runs;
    RecordFailShape(st, id);
    RecordFailHistory(st, id);
    if BackoffOK(st) {
      RecordFailBackoff(st, id);
    }
    forall x | BackoffActive(RecordFail(st, id), x) ensures BackoffActive(st, x) || !Runs(st, x) {
      RecordFailWindow(st, id, x);
    }
  }

  lemma ReapMoves(cfg: Scheduling, ev: Event, st: State, id: string, proc: nat, o: Oracle) returns (ms: seq<Move>)
    requires ev == Reaped(id, proc, o)
    ensures Chain(cfg, ev, st, ms, Reap(cfg, st, id, proc, o))
  {
    ms := [];
    if Reaps(cfg, ev, st, id) {
      if Listens(cfg, st, id, st.procs[id], o) {
        ms := [Adopt(id)];
        One(cfg, ev, st, Adopt(id));
      } else {
        ms := [Stop(id)];
        One(cfg, ev, st, Stop(id));
        if !st.procs[id].sleeping {
          RecordFailBooks(ev, Stopped(st, id), id);
          Then(cfg, ev, st, ms, Stopped(st, id), Book(RecordFail(Stopped(st, id), id)));
          ms := ms + [Book(RecordFail(Stopped(st, id), id))];
        }
      }
    }
  }

  lemma StartMoves(cfg: Scheduling, ev: Event, st: State, o: Oracle) returns (ms: seq<Move>)
    requires Good(cfg) && Core(cfg, st) && IsGroup(cfg, o.group) && ev.Start?
    ensures Chain(cfg, ev, st, ms, GroupSwitch(cfg, st, o).(started := true))
  {
    var s1 := GroupSwitch(cfg, st, o);
    ms := GroupSwitchMoves(cfg, ev, st, o);
    var book := BookMoves(cfg, ev, s1, s1.(started := true));
    Join(cfg, ev, st, ms, s1, book, s1.(started := true));
    ms := ms + book;
  }

  lemma FinishMoves(cfg: Scheduling, ev: Event, st: State, oks: seq<string>, o: Oracle) returns (ms: seq<Move>)
    requires Inv(cfg, st) && st.flight.Switching? && forall id :: id in oks ==> id in st.flight.wait
    ensures Chain(cfg, ev, st, ms, MarkAll(cfg, st, oks, o).(flight := Idle))
  {
    hide MarkAll, Chain, Core, CodingOK;
    var s1 := MarkAll(cfg, st, oks, o);
    ms := MarkAllMoves(cfg, ev, st, oks, o);
    var book := BookMoves(cfg, ev, s1, s1.(flight := Idle));
    Join(cfg, ev, st, ms, s1, book, s1.(flight := Idle));
    ms := ms + book;
  }

  lemma TableMoves(cfg: Scheduling, ev: Event, st: State) returns (ms: seq<Move>)
    requires ev.Touched? || ev.Entered? || ev.Left? || ev.Tick?
    ensures Chain(cfg, ev, st, ms, Apply(cfg, st, ev))
  {
    ms := BookMoves(cfg, ev, st, Apply(cfg, st, ev));
  }

  /** Every enabled step is a chain of fine moves. */
  lemma StepMoves(cfg: Scheduling, st: State, ev: Event) returns (ms: seq<Move>)
    requires Good(cfg) && Inv(cfg, st) && Enabled(cfg, st, ev)
    ensures Chain(cfg, ev, st, ms, Apply(cfg, st, ev))
  {
    match ev
    case Start(o) => ms := StartMoves(cfg, ev, st, o);
    case Ask(id, o) => ms := RequestMoves(cfg, ev, st, id, o);
    case Ready(id, o) =>
      ms := [Mark(id, o)];
      One(cfg, ev, st, Mark(id, o));
    case Finish(oks, o) => ms := FinishMoves(cfg, ev, st, oks, o);
    case Reaped(id, proc, o) => ms := ReapMoves(cfg, ev, st, id, proc, o);
    case Visited(id, o) => ms := VisitMoves(cfg, ev, st, id, o);
    case Recovered(o) => ms := RecoverMoves(cfg, ev, st, o);
    case LeaseTick(o) => ms := GroupSwitchMoves(cfg, ev, st, o);
    case Exited(p) =>
      ms := [Kill(p)];
      One(cfg, ev, st, Kill(p));
    case _ => ms := TableMoves(cfg, ev, st);
  }

  lemma RecoverMoves(cfg: Scheduling, ev: Event, st: State, o: Oracle) returns (ms: seq<Move>)
    requires Good(cfg) && Inv(cfg, st) && IsGroup(cfg, o.group) && ev.Recovered?
    ensures Chain(cfg, ev, st, ms, Recover(cfg, st, o))
  {
    hide GroupSwitch, Core, CodingOK;
    if o.group == [] {
      ms := BookMoves(cfg, ev, st, Recover(cfg, st, o));
    } else {
      ms := GroupSwitchMoves(cfg, ev, st, o);
    }
  }

  // What fine moves keep.

  lemma KillCore(cfg: Scheduling, st: State, p: nat)
    requires Core(cfg, st)
    ensures Core(cfg, st.(live := st.live - {p}))
  {
    var st' := st.(live := st.live - {p});
    FewerRun(cfg, st, st');
    forall x | x in st'.procs ensures SlotOK(st', st'.procs[x]) {
      assert SlotOK(st, st.procs[x]);
    }
  }

  lemma ForgetCore(cfg: Scheduling, st: State, id: string)
    requires Core(cfg, st) && id in st.procs && st.procs[id].cmd == 0
    ensures Core(cfg, Forgotten(st, id))
  {
    assert SlotOK(st, st.procs[id]);
    SlotCore(cfg, st, Forgotten(st, id), id);
  }

  lemma MoveCore(cfg: Scheduling, ev: Event, st: State, m: Move)
    requires Core(cfg, st) && Fine(cfg, ev, st, m)
    ensures Core(cfg, Do(cfg, st, m))
  {
    match m
    case Mark(id, o) => MarkReadyCore(cfg, st, id, o);
    case Sleep(id) => SuspendCore(cfg, st, id);
    case Evict(id) => SuspendCore(cfg, st, id);
    case Stop(id) => StoppedCore(cfg, st, id);
    case Adopt(id) => AdoptedCore(cfg, st, id);
    case Forget(id) => ForgetCore(cfg, st, id);
    case Free(id, o) => FreePortCore(cfg, st, id, o);
    case Put(id, started) => PlaceCore(cfg, st, id, started);
    case Again(id) => RerunCore(cfg, st, id);
    case Clear => StopAllCore(cfg, st);
    case Kill(p) => KillCore(cfg, st, p);
    case Book(to) => SameSlotsCore(cfg, st, to);
  }
}
