/** When models fall asleep, and whether every process alive belongs to a slot. */
module Lifetimes {
  import opened Text
  import opened Config
  import opened Machine
  import opened Invariants
  import opened Steps
  import opened Moves
  import opened Theorems
  import opened Requests
  import opened Outcomes
  import opened Probes

  // Falling asleep.

  /** ev makes room for the model it is about: a granted request that launches it beside the
      others or restarts it, or a look of the probe loop that restarts it. */
  ghost predicate MakesRoom(cfg: Scheduling, st: State, ev: Event) {
    match ev
    case Ask(id, o) =>
      && Admits(cfg, st, id) && At(cfg, id).mode == Background && !ByGroup(cfg, st, id) && !Runs(st, id) && st.flight == Idle
      && !BackingOff(st, id) && !CardKept(cfg, st, id) && (InGroup(cfg, id) ==> At(cfg, id).command != "")
    case Visited(id, o) =>
      && Probed(cfg, st, id) && Vanished(cfg, st, id, o) && At(cfg, id).mode == Background && At(cfg, id).command != ""
      && !BackingOff(st, id) && !CardKept(cfg, st, id)
    case _ => false
  }

  /** A model that is awake falls asleep in a step if and only if the probe loop finds it
      idle for longer than its timeout with no request in flight, or room is made for
      another model on its card.  A switch puts nobody to sleep. */
  lemma SleepsExactlyWhen(cfg: Scheduling, st: State, ev: Event, x: string)
    requires Good(cfg) && Inv(cfg, st) && Enabled(cfg, st, ev) && !Asleep(st, x)
    ensures Asleep(Apply(cfg, st, ev), x) <==>
      || (ev.Visited? && ev.id == x && DueToSleep(cfg, st, x))
      || (MakesRoom(cfg, st, ev) && Holds(cfg, st, x, ev.id))
  {
    hide Inv, Request, Visit, Reap, MarkReady, MarkAll, GroupSwitch, Recover, Good, Holds, DueToSleep;
    hide Probed, Vanished, Admits, BackingOff, CardKept, ByGroup, Runs;
    match ev
    case Ask(id, o) => RequestSleeps(cfg, st, id, o, x);
    case Visited(id, o) => VisitSleeps(cfg, st, id, o, x);
    case Ready(id, o) => MarkReadySteady(cfg, st, id, o);
    case Finish(oks, o) => FinishSleeps(cfg, st, oks, o, x);
    case Reaped(id, proc, o) => ReapSleeps(cfg, st, id, proc, o, x);
    case Start(o) => ReturnSleeps(cfg, st, ev, x);
    case Recovered(o) => ReturnSleeps(cfg, st, ev, x);
    case LeaseTick(o) => ReturnSleeps(cfg, st, ev, x);
    case _ =>
  }

  lemma SwitchedSleeps(cfg: Scheduling, st: State, st': State, ids: set<string>, coding: string, o: Oracle, x: string)
    requires Switched(cfg, st, st', ids, coding, o) && !Asleep(st, x)
    ensures !Asleep(st', x)
  {
    hide Halted;
    if x in ids {
      assert TargetLeft(cfg, OnlyStayers(cfg, st), st', x, o);
    }
  }

  lemma RoomSleeps(cfg: Scheduling, st: State, st': State, id: string, o: Oracle, x: string)
    requires MadeRoom(cfg, st, st', id, o) && !Asleep(st, x) && (x == id ==> !Asleep(st', x))
    ensures Asleep(st', x) <==> Holds(cfg, st, x, id)
  {
  }

  lemma RestartSleeps(cfg: Scheduling, st: State, st': State, id: string, o: Oracle, x: string)
    requires Restarted(cfg, st, st', id, o) && !Asleep(st, x)
    ensures Asleep(st', x) <==> Due(cfg, st, id) && Holds(cfg, st, x, id)
  {
    hide MadeRoom, CardKept, Holds;
    if Due(cfg, st, id) {
      assert id in st'.procs by { RoomKeeps(cfg, st, st', id, o); }
      RoomSleeps(cfg, st, st', id, o, x);
      assert !Holds(cfg, st, id, id) by { NotItself(cfg, st, id); }
    }
  }

  lemma RoomKeeps(cfg: Scheduling, st: State, st': State, id: string, o: Oracle)
    requires MadeRoom(cfg, st, st', id, o)
    ensures id in st'.procs
  {
  }

  lemma NotItself(cfg: Scheduling, st: State, id: string)
    ensures !Holds(cfg, st, id, id)
  {
  }

  lemma NotedHolds(cfg: Scheduling, st: State, id: string, x: string)
    ensures var s1 := Noted(cfg, st, id);
      && (Holds(cfg, s1, x, id) <==> Holds(cfg, st, x, id)) && (Asleep(s1, x) <==> Asleep(st, x))
      && (Due(cfg, s1, id) <==> Due(cfg, st, id))
  {
    hide Known, CardKept;
    NotedSame(cfg, st, id);
  }

  lemma AdmitsKnown(cfg: Scheduling, st: State, id: string)
    requires Admits(cfg, st, id)
    ensures Known(cfg, id)
  {
  }

  lemma RequestSleeps(cfg: Scheduling, st: State, id: string, o: Oracle, x: string)
    requires Good(cfg) && Inv(cfg, st) && IsGroup(cfg, o.group) && !Asleep(st, x)
    ensures Asleep(Request(cfg, st, id, o).0, x) <==> MakesRoom(cfg, st, Ask(id, o)) && Holds(cfg, st, x, id)
  {
    hide Request, Inv, Switched, Restarted, LaunchedAlone, OnLease, CardKept, SchedulingAccepted, Runs, BackingOff;
    hide IsGroup, Admits, Holds, Noted;
    var s1, r := Noted(cfg, st, id), Request(cfg, st, id, o);
    ReplyExactlyWhen(cfg, st, id, o);
    RequestLeaves(cfg, st, id, o);
    NotedHolds(cfg, st, id, x);
    if Admits(cfg, st, id) {
      assert Known(cfg, id) by { AdmitsKnown(cfg, st, id); }
      KnownMode(cfg, id);
    }
    if Switched(cfg, s1, r.0, set y | y in o.group, "", o) {
      SwitchedSleeps(cfg, s1, r.0, set y | y in o.group, "", o, x);
    }
    if Switched(cfg, s1, r.0, {id}, id, o) {
      SwitchedSleeps(cfg, s1, r.0, {id}, id, o, x);
    }
    if Restarted(cfg, s1, r.0, id, o) {
      RestartSleeps(cfg, s1, r.0, id, o, x);
    }
    if LaunchedAlone(cfg, s1, r.0, id, o) {
      AloneSleeps(cfg, s1, r.0, id, o, x);
    }
  }

  lemma AloneSleeps(cfg: Scheduling, st: State, st': State, id: string, o: Oracle, x: string)
    requires LaunchedAlone(cfg, st, st', id, o) && !Asleep(st, x)
    ensures Asleep(st', x) <==> Holds(cfg, st, x, id)
  {
    hide MadeRoom, Holds;
    RoomSleeps(cfg, st, st', id, o, x);
    NotItself(cfg, st, id);
  }

  /** Forgetting a server changes nobody else's card. */
  lemma ForgottenHolds(cfg: Scheduling, st: State, id: string, x: string)
    requires id in st.procs && st.procs[id].cmd == 0 && At(cfg, id).mode == Background
    ensures var s1 := st.(procs := st.procs[id := st.procs[id].(server := 0)]);
      && (Holds(cfg, s1, x, id) <==> Holds(cfg, st, x, id)) && (Asleep(s1, x) <==> Asleep(st, x))
      && (Due(cfg, s1, id) <==> At(cfg, id).command != "" && !BackingOff(st, id) && !CardKept(cfg, st, id))
  {
    var s1 := st.(procs := st.procs[id := st.procs[id].(server := 0)]);
    assert forall y :: y != id ==> (Runs(s1, y) <==> Runs(st, y));
    assert forall y :: Holds(cfg, s1, y, id) <==> Holds(cfg, st, y, id);
    assert !Runs(s1, id);
  }

  lemma MarkedSleeps(cfg: Scheduling, st: State, st': State, id: string, o: Oracle, x: string)
    requires MarkedReady(cfg, st, st', id, o)
    ensures Asleep(st', x) <==> Asleep(st, x)
  {
  }

  lemma SleptSleeps(cfg: Scheduling, st: State, st': State, id: string, x: string)
    requires SleptAlone(st, st', id)
    ensures Asleep(st', x) <==> x == id || Asleep(st, x)
  {
  }

  lemma VisitSleeps(cfg: Scheduling, st: State, id: string, o: Oracle, x: string)
    requires Good(cfg) && Inv(cfg, st) && !Asleep(st, x)
    ensures Asleep(Visit(cfg, st, id, o), x) <==>
      (id == x && DueToSleep(cfg, st, x)) || (MakesRoom(cfg, st, Visited(id, o)) && Holds(cfg, st, x, id))
  {
    hide Visit, Inv, Good, Restarted, SleptAlone, MarkedReady, Holds, Due, CardKept, BackingOff, Asleep, Answers;
    var st' := Visit(cfg, st, id, o);
    VisitExactlyWhen(cfg, st, id, o);
    if DueToSleep(cfg, st, id) {
      SleptSleeps(cfg, st, st', id, x);
    } else if Probed(cfg, st, id) {
      if Vanished(cfg, st, id, o) {
        if At(cfg, id).mode == Background {
          ForgottenHolds(cfg, st, id, x);
          RestartSleeps(cfg, st.(procs := st.procs[id := st.procs[id].(server := 0)]), st', id, o, x);
        } else {
          ForgottenAsleep(st, id, x);
        }
      } else if id in o.probes {
        MarkedSleeps(cfg, st, st', id, o, x);
      }
    }
  }

  lemma ForgottenAsleep(st: State, id: string, x: string)
    requires id in st.procs
    ensures Asleep(st.(procs := st.procs[id := st.procs[id].(server := 0)]), x) <==> Asleep(st, x)
  {
  }

  lemma ReapSleeps(cfg: Scheduling, st: State, id: string, proc: nat, o: Oracle, x: string)
    requires Inv(cfg, st)
    ensures Asleep(Reap(cfg, st, id, proc, o), x) <==> Asleep(st, x)
  {
    hide Reap, Inv, Backoff.Delay, Answers;
    ReapExactlyWhen(cfg, st, id, proc, o);
  }

  lemma FinishSleeps(cfg: Scheduling, st: State, oks: seq<string>, o: Oracle, x: string)
    requires Inv(cfg, st) && Enabled(cfg, st, Finish(oks, o))
    ensures Asleep(Apply(cfg, st, Finish(oks, o)), x) <==> Asleep(st, x)
  {
    hide MarkAll, Inv;
    MarkAllSteady(cfg, st, oks, o);
  }

  lemma {:induction false} MarkAllSteady(cfg: Scheduling, st: State, ids: seq<string>, o: Oracle)
    ensures Steady(st, MarkAll(cfg, st, ids, o))
    decreases |ids|
  {
    hide MarkReady;
    if ids != [] {
      MarkReadySteady(cfg, st, ids[0], o);
      MarkAllSteady(cfg, MarkReady(cfg, st, ids[0], o), ids[1..], o);
    }
  }

  lemma ReturnSleeps(cfg: Scheduling, st: State, ev: Event, x: string)
    requires Good(cfg) && Inv(cfg, st) && Enabled(cfg, st, ev) && (ev.Start? || ev.LeaseTick? || ev.Recovered?) && !Asleep(st, x)
    ensures !Asleep(Apply(cfg, st, ev), x)
  {
    hide SwitchTo, Inv, Good, Switched;
    if ev.o.group != [] {
      Returns(cfg, st, ev);
      SwitchedSleeps(cfg, st, Apply(cfg, st, ev).(started := st.started), set y | y in ev.o.group, "", ev.o, x);
    }
  }

  /** Hence nobody is put to sleep early: over every run a model that was awake and is asleep
      after the next step was ready with no request in flight and idle for more than its
      timeout, or runs on a card that another model takes over. */
  lemma NotBeforeTimeout(cfg: Scheduling, evs: seq<Event>, ev: Event, x: string)
    requires Good(cfg) && Legal(cfg, evs) && Enabled(cfg, Reached(cfg, evs), ev)
    requires !Asleep(Reached(cfg, evs), x) && Asleep(Apply(cfg, Reached(cfg, evs), ev), x)
    ensures (ev.Visited? && ev.id == x && DueToSleep(cfg, Reached(cfg, evs), x)) || TakenOver(cfg, ev, x)
  {
    hide Apply, Reached, Legal, Enabled;
    ReachedInv(cfg, evs);
    var st := Reached(cfg, evs);
    SleepsExactlyWhen(cfg, st, ev, x);
    if MakesRoom(cfg, st, ev) && Holds(cfg, st, x, ev.id) {
      NotKept(cfg, st, ev.id, x);
      HolderIsBackground(cfg, st, ev, x);
    }
  }

  /** Another model is asked for or restarted that declares x's card, which x may lose. */
  predicate TakenOver(cfg: Scheduling, ev: Event, x: string) {
    && (ev.Ask? || ev.Visited?) && ev.id != x && SameCard(cfg, ev.id, x)
    && At(cfg, x).mode == Background && !At(cfg, x).resident
  }

  lemma NotKept(cfg: Scheduling, st: State, id: string, x: string)
    requires !CardKept(cfg, st, id) && Holds(cfg, st, x, id)
    ensures !At(cfg, x).resident
  {
  }

  lemma HolderIsBackground(cfg: Scheduling, st: State, ev: Event, x: string)
    requires Good(cfg) && Inv(cfg, st) && MakesRoom(cfg, st, ev) && Holds(cfg, st, x, ev.id)
    ensures At(cfg, x).mode == Background
  {
    hide CardKept, Answers, BackingOff, FlightOK, OneOwner, Lifecycle, LaunchesOK, BackoffOK;
    CodingUpIs(cfg, st);
    if ev.Visited? {
      if CodingRunning(cfg, st) {
        BesideCoding(cfg, st, ev.id);
      }
    }
    assert Known(cfg, ev.id);
    ArbitrationSparesCoding(cfg, st, ev.id);
    assert x in Owners(cfg, st, ev.id);
  }

  // No process without a slot.

  ghost predicate Owned(st: State, p: nat) {
    exists x :: x in st.procs && st.procs[x].Proc() == p
  }

  /** Every process alive is the one behind some slot. */
  ghost predicate AllOwned(st: State) {
    forall p | p in st.live :: Owned(st, p)
  }

  /** The probe loop is about to forget a server that lives: the slot has no command, the
      server runs, but the port lookup does not find it. */
  predicate Forgets(cfg: Scheduling, st: State, ev: Event) {
    && ev.Visited? && Probed(cfg, st, ev.id) && st.procs[ev.id].cmd == 0 && st.procs[ev.id].server in st.live
    && !Answers(cfg, st, ev.id, ev.o)
  }

  /** In the step ev no server that lives can be forgotten. */
  predicate Safely(st: State, ev: Event) {
    ev.Visited? && ev.id in st.procs && st.procs[ev.id].cmd == 0 ==> st.procs[ev.id].server !in st.live
  }

  lemma KeptOwned(st: State, st': State)
    requires AllOwned(st) && st'.live <= st.live
    requires forall x | x in st.procs && st.procs[x].Proc() in st'.live :: x in st'.procs && st'.procs[x].Proc() == st.procs[x].Proc()
    ensures AllOwned(st')
  {
    forall p | p in st'.live ensures Owned(st', p) {
      assert Owned(st, p);
      var x :| x in st.procs && st.procs[x].Proc() == p;
      assert x in st'.procs && st'.procs[x].Proc() == p;
    }
  }

  /** id, which did not run, may get a new process. */
  lemma NewOwned(st: State, st': State, id: string, p: nat)
    requires AllOwned(st) && LaunchesOK(st) && !Runs(st, id) && st'.live <= st.live + {p}
    requires id in st'.procs && (p in st'.live && p !in st.live ==> st'.procs[id].Proc() == p)
    requires forall x | x in st.procs && x != id :: x in st'.procs && st'.procs[x] == st.procs[x]
    ensures AllOwned(st')
  {
    LiveNotZero(st);
    forall q | q in st'.live ensures Owned(st', q) {
      if q in st.live {
        assert Owned(st, q);
        var x :| x in st.procs && st.procs[x].Proc() == q;
        assert x != id;
        assert x in st'.procs && st'.procs[x].Proc() == q;
      } else {
        assert st'.procs[id].Proc() == q;
      }
    }
  }

  lemma MarkReadyOwned(cfg: Scheduling, st: State, id: string, o: Oracle)
    requires AllOwned(st)
    ensures AllOwned(MarkReady(cfg, st, id, o)) && MarkReady(cfg, st, id, o).live == st.live
    ensures forall x :: x in MarkReady(cfg, st, id, o).procs <==> x in st.procs
    ensures forall x | x in st.procs :: MarkReady(cfg, st, id, o).procs[x].Proc() == st.procs[x].Proc()
    ensures forall x | x in st.procs :: MarkReady(cfg, st, id, o).procs[x].cmd == st.procs[x].cmd
  {
    hide AllOwned;
    KeptOwned(st, MarkReady(cfg, st, id, o));
  }

  lemma StartOwned(cfg: Scheduling, ev: Event, st: State, m: Move)
    requires Core(cfg, st) && Fine(cfg, ev, st, m) && AllOwned(st) && Safely(st, ev) && (m.Put? || m.Again?)
    ensures AllOwned(Do(cfg, st, m)) && Safely(Do(cfg, st, m), ev)
  {
    hide OneOwner, Lifecycle, KeysOK, BackoffOK, AllOwned, GPUFree, Timely, MayPut;
    LiveNotZero(st);
    NewOwned(st, Do(cfg, st, m), m.id, st.nextProc);
  }

  lemma MoveOwned(cfg: Scheduling, ev: Event, st: State, m: Move)
    requires Core(cfg, st) && Fine(cfg, ev, st, m) && AllOwned(st) && Safely(st, ev)
    ensures AllOwned(Do(cfg, st, m)) && Safely(Do(cfg, st, m), ev)
  {
    hide OneOwner, Lifecycle, KeysOK, BackoffOK, AllOwned, GPUFree, Beside, Books, MarkReady, FreePort, StopAll, Listens;
    hide Timely, MayPut, Place, Rerun;
    LiveNotZero(st);
    var st' := Do(cfg, st, m);
    match m
    case Mark(id, o) => MarkReadyOwned(cfg, st, id, o);
    case Free(id, o) =>
      FreePortShape(cfg, st, id, o);
      KeptOwned(st, st');
    case Put(id, started) => StartOwned(cfg, ev, st, m);
    case Again(id) => StartOwned(cfg, ev, st, m);
    case Clear => ClearOwned(cfg, st);
    case _ => KeptOwned(st, st');
  }

  lemma ClearOwned(cfg: Scheduling, st: State)
    requires LaunchesOK(st) && AllOwned(st)
    ensures AllOwned(StopAll(cfg, st))
  {
    hide Survives;
    forall x | x in st.procs && st.procs[x].Proc() in StopAll(cfg, st).live ensures Survives(cfg, x) {
      LiveNotZero(st);
      StopAllStops(cfg, st, x);
    }
    KeptOwned(st, StopAll(cfg, st));
  }

  lemma {:induction false} ChainOwned(cfg: Scheduling, ev: Event, st: State, ms: seq<Move>, st': State)
    requires Chain(cfg, ev, st, ms, st') && Core(cfg, st) && AllOwned(st) && Safely(st, ev)
    ensures AllOwned(st')
    decreases |ms|
  {
    hide Core, AllOwned, Safely, Fine, Do;
    if ms != [] {
      MoveCore(cfg, ev, st, ms[0]);
      MoveOwned(cfg, ev, st, ms[0]);
      ChainOwned(cfg, ev, Do(cfg, st, ms[0]), ms[1..], st');
    }
  }

  /** Making room and restarting touch no process but those of slots. */
  lemma StrayLives(cfg: Scheduling, st: State, id: string, o: Oracle, p: nat)
    requires p != 0 && p in st.live && forall x :: x in st.procs ==> st.procs[x].Proc() != p
    ensures p in Restart(cfg, st, id, o).live
  {
    if NeedRestart(cfg, st, id) && Acquire(cfg, st, id, o).Some? {
      var s1 := Acquire(cfg, st, id, o).value;
      assert p in s1.live && forall x :: x in s1.procs ==> s1.procs[x].Proc() != p;
      StrayStays(cfg, s1, id, o, p);
    }
  }

  lemma StrayStays(cfg: Scheduling, st: State, id: string, o: Oracle, p: nat)
    requires p in st.live && forall x :: x in st.procs ==> st.procs[x].Proc() != p
    ensures p in Relaunch(cfg, st, id, o).live
  {
    hide Listens;
  }

  lemma ForgottenStrays(cfg: Scheduling, st: State, id: string, o: Oracle)
    requires Good(cfg) && Inv(cfg, st) && Forgets(cfg, st, Visited(id, o))
    ensures !AllOwned(Apply(cfg, st, Visited(id, o)))
  {
    hide Good, Inv, Restart, Restarted, AllOwned;
    var p, s1, st' := st.procs[id].server, Forgotten(st, id), Apply(cfg, st, Visited(id, o));
    CoreLaunches(cfg, st);
    LiveNotZero(st);
    GoneIs(cfg, st, id, o);
    VisitIsGone(cfg, st, id, o);
    if At(cfg, id).mode == Background {
      VanishedInv(cfg, st, id, o);
      StrayLives(cfg, s1, id, o, p);
      assert Core(cfg, s1) by { InvCore(cfg, s1); }
      RestartMakes(cfg, s1, id, o);
      RestartOwns(cfg, s1, st', id, o, p);
    }
    NotOwned(st', p);
  }

  lemma InvCore(cfg: Scheduling, st: State)
    requires Inv(cfg, st)
    ensures Core(cfg, st)
  {
  }

  lemma VisitIsGone(cfg: Scheduling, st: State, id: string, o: Oracle)
    requires Probed(cfg, st, id) && Gone(cfg, st, id, o)
    ensures Apply(cfg, st, Visited(id, o)) ==
      if At(cfg, id).mode == Background then Restart(cfg, Forgotten(st, id), id, o) else Forgotten(st, id)
  {
  }

  lemma RestartOwns(cfg: Scheduling, st: State, st': State, id: string, o: Oracle, p: nat)
    requires Restarted(cfg, st, st', id, o) && id in st.procs && 0 < p < st.nextProc && st.procs[id].server != p
    requires forall x :: x in st.procs ==> st.procs[x].Proc() != p
    ensures forall x :: x in st'.procs ==> st'.procs[x].Proc() != p
  {
    hide Due, Holds, Clears;
  }

  lemma NotOwned(st: State, p: nat)
    requires p in st.live && forall x :: x in st.procs ==> st.procs[x].Proc() != p
    ensures !AllOwned(st)
  {
    assert !Owned(st, p);
  }

  /** A step leaves every process alive behind a slot if and only if it forgets no server
      that lives: switches, evictions, restarts and sleeping lose none. */
  lemma StepOwnedExactlyWhen(cfg: Scheduling, st: State, ev: Event)
    requires Good(cfg) && Inv(cfg, st) && Enabled(cfg, st, ev) && AllOwned(st)
    ensures AllOwned(Apply(cfg, st, ev)) <==> !Forgets(cfg, st, ev)
  {
    hide Good, Core, CodingOK, FlightOK, Apply, Enabled, AllOwned, Answers;
    if Safely(st, ev) {
      var ms := StepMoves(cfg, st, ev);
      ChainOwned(cfg, ev, st, ms, Apply(cfg, st, ev));
    } else if Forgets(cfg, st, ev) {
      ForgottenStrays(cfg, st, ev.id, ev.o);
    } else {
      FoundOwned(cfg, st, ev.id, ev.o);
    }
  }

  lemma FoundOwned(cfg: Scheduling, st: State, id: string, o: Oracle)
    requires Good(cfg) && Inv(cfg, st) && AllOwned(st) && !Safely(st, Visited(id, o)) && !Forgets(cfg, st, Visited(id, o))
    ensures AllOwned(Apply(cfg, st, Visited(id, o)))
  {
    hide Good, Inv, Apply, AllOwned, Restarted;
    VisitExactlyWhen(cfg, st, id, o);
    KeptOwned(st, Apply(cfg, st, Visited(id, o)));
  }

  /** Some step of the run forgets a server that lives. */
  ghost predicate SomeForgets(cfg: Scheduling, st: State, evs: seq<Event>)
    decreases |evs|
  {
    evs != [] && (Forgets(cfg, st, evs[0]) || SomeForgets(cfg, Apply(cfg, st, evs[0]), evs[1..]))
  }

  lemma {:induction false} RunOwned(cfg: Scheduling, st: State, evs: seq<Event>)
    requires Good(cfg) && Inv(cfg, st) && IsRun(cfg, st, evs) && AllOwned(st) && !SomeForgets(cfg, st, evs)
    ensures AllOwned(Exec(cfg, st, evs))
    decreases |evs|
  {
    hide Good, Inv, Apply, Enabled, AllOwned, Forgets;
    if evs != [] {
      StepOwnedExactlyWhen(cfg, st, evs[0]);
      StepInv(cfg, st, evs[0]);
      RunOwned(cfg, Apply(cfg, st, evs[0]), evs[1..]);
    }
  }

  /** No process is lost: over every run in which no port lookup misses a server that lives,
      every process alive is behind exactly one slot. */
  lemma NoStrays(cfg: Scheduling, evs: seq<Event>, p: nat)
    requires Good(cfg) && Legal(cfg, evs) && !SomeForgets(cfg, INIT, evs) && p in Reached(cfg, evs).live
    ensures var st := Reached(cfg, evs);
      exists x :: x in st.procs && st.procs[x].Proc() == p && forall y | y in st.procs && st.procs[y].Proc() == p :: y == x
  {
    hide Good, SomeForgets, Exec, Inv, IsRun;
    InitInv(cfg);
    assert AllOwned(INIT);
    RunOwned(cfg, INIT, evs);
    ReachedInv(cfg, evs);
    OneSlotEach(cfg, Reached(cfg, evs), p);
  }

  lemma OneSlotEach(cfg: Scheduling, st: State, p: nat)
    requires Inv(cfg, st) && AllOwned(st) && p in st.live
    ensures exists x :: x in st.procs && st.procs[x].Proc() == p && forall y | y in st.procs && st.procs[y].Proc() == p :: y == x
  {
    assert Owned(st, p);
    var x :| x in st.procs && st.procs[x].Proc() == p;
    assert forall y | y in st.procs && st.procs[y].Proc() == p :: y == x;
  }
}
