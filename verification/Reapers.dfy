/** Every command has one reaper, a goroutine that waits for its exit.  launchSlot starts it
    before it registers the slot, so a command that exits in between is reaped in vain: the
    reaper finds no slot of its own and is gone, and the slot comes to hold a command nobody
    will report. */
module Reapers {
  import opened Text
  import opened Config
  import opened Machine
  import opened Invariants
  import opened Steps
  import opened Moves
  import opened Theorems
  import opened Requests
  import opened Hazards

  /** The machine and the reapers that still wait, each for the command it was started with. */
  datatype Watched = Watched(st: State, reapers: set<(string, nat)>)

  /** A step, and those of the commands it starts that exit and are reaped before their
      slot is registered. */
  datatype Step = Step(ev: Event, early: set<nat>)

  const NOBODY := Watched(INIT, {})

  /** Slot id came to hold a command started in this step. */
  predicate Started(st: State, st': State, id: string) {
    id in st'.procs && st'.procs[id].cmd >= st.nextProc && st'.procs[id].cmd != 0
  }

  /** And it is a new slot: restartMember, which keeps the slot and its channel, stores the
      command before it starts the reaper. */
  predicate Launched(st: State, st': State, id: string) {
    Started(st, st', id) && st'.procs[id].ch >= st.nextCh
  }

  ghost predicate CanStep(cfg: Scheduling, w: Watched, s: Step) {
    && Enabled(cfg, w.st, s.ev)
    && (s.ev.Reaped? ==> (s.ev.id, s.ev.proc) in w.reapers)
    && forall p | p in s.early :: exists id :: Launched(w.st, Apply(cfg, w.st, s.ev), id) && Apply(cfg, w.st, s.ev).procs[id].cmd == p
  }

  ghost function After(cfg: Scheduling, w: Watched, s: Step): Watched {
    var st' := Apply(cfg, w.st, s.ev);
    var done := if s.ev.Reaped? then {(s.ev.id, s.ev.proc)} else {};
    Watched(st', w.reapers - done +
      set id | id in st'.procs && Started(w.st, st', id) && st'.procs[id].cmd !in s.early :: (id, st'.procs[id].cmd))
  }

  ghost predicate CanRun(cfg: Scheduling, w: Watched, steps: seq<Step>)
    decreases |steps|
  {
    steps == [] || (CanStep(cfg, w, steps[0]) && CanRun(cfg, After(cfg, w, steps[0]), steps[1..]))
  }

  ghost function Ran(cfg: Scheduling, w: Watched, steps: seq<Step>): Watched
    decreases |steps|
  {
    if steps == [] then w else Ran(cfg, After(cfg, w, steps[0]), steps[1..])
  }

  /** Every command a slot holds will be reported when it exits. */
  ghost predicate AllWatched(w: Watched) {
    forall id | id in w.st.procs && w.st.procs[id].cmd != 0 :: (id, w.st.procs[id].cmd) in w.reapers
  }

  ghost predicate AlwaysWatched(cfg: Scheduling, w: Watched, steps: seq<Step>)
    decreases |steps|
  {
    AllWatched(w) && (steps != [] ==> AlwaysWatched(cfg, After(cfg, w, steps[0]), steps[1..]))
  }

  predicate NoneEarly(steps: seq<Step>) {
    forall i | 0 <= i < |steps| :: steps[i].early == {}
  }

  // Where a slot's command comes from.

  /** A slot's command was there, with the same slot, or was started since launch n. */
  ghost predicate CommandsFrom(st: State, st': State, n: nat) {
    && st'.nextProc >= n
    && forall x | x in st'.procs && st'.procs[x].cmd != 0 ::
         (x in st.procs && st.procs[x].cmd == st'.procs[x].cmd) || st'.procs[x].cmd >= n
  }

  lemma MarkReadyCommands(cfg: Scheduling, st: State, id: string, o: Oracle)
    ensures var st' := MarkReady(cfg, st, id, o);
      && st'.nextProc == st.nextProc && st'.procs.Keys == st.procs.Keys
      && forall x | x in st.procs :: st'.procs[x].cmd == st.procs[x].cmd
  {
  }

  lemma MoveCommands(cfg: Scheduling, ev: Event, st0: State, st: State, m: Move, n: nat)
    requires CommandsFrom(st0, st, n) && Fine(cfg, ev, st, m)
    ensures CommandsFrom(st0, Do(cfg, st, m), n)
  {
    hide Suspend, StopAll, FreePort, Listens, GPUFree, Beside, Books;
    match m
    case Mark(id, o) => MarkReadyCommands(cfg, st, id, o);
    case Free(id, o) => FreePortShape(cfg, st, id, o);
    case Sleep(id) => SuspendCommands(st0, st, id, n);
    case Evict(id) => SuspendCommands(st0, st, id, n);
    case Clear => StopAllCommands(cfg, st0, st, n);
    case _ =>
  }

  lemma SuspendCommands(st0: State, st: State, id: string, n: nat)
    requires CommandsFrom(st0, st, n) && id in st.procs
    ensures CommandsFrom(st0, Suspend(st, id), n)
  {
  }

  lemma StopAllCommands(cfg: Scheduling, st0: State, st: State, n: nat)
    requires CommandsFrom(st0, st, n)
    ensures CommandsFrom(st0, StopAll(cfg, st), n)
  {
  }

  lemma {:induction false} ChainCommands(cfg: Scheduling, ev: Event, st0: State, st: State, ms: seq<Move>, st': State, n: nat)
    requires CommandsFrom(st0, st, n) && Chain(cfg, ev, st, ms, st')
    ensures CommandsFrom(st0, st', n)
    decreases |ms|
  {
    hide CommandsFrom, Fine, Do;
    if ms != [] {
      MoveCommands(cfg, ev, st0, st, ms[0], n);
      ChainCommands(cfg, ev, st0, Do(cfg, st, ms[0]), ms[1..], st', n);
    }
  }

  lemma StepCommands(cfg: Scheduling, st: State, ev: Event)
    requires Good(cfg) && Inv(cfg, st) && Enabled(cfg, st, ev)
    ensures CommandsFrom(st, Apply(cfg, st, ev), st.nextProc)
  {
    hide Inv, Apply, Enabled;
    var ms := StepMoves(cfg, st, ev);
    assert CommandsFrom(st, st, st.nextProc);
    ChainCommands(cfg, ev, st, st, ms, Apply(cfg, st, ev), st.nextProc);
  }

  /** The reaper's slot holds its command no more. */
  lemma ReapedIsGone(cfg: Scheduling, st: State, id: string, proc: nat, o: Oracle)
    requires proc != 0
    ensures var st' := Reap(cfg, st, id, proc, o); id in st'.procs ==> st'.procs[id].cmd != proc
  {
    hide Listens, RecordFail;
    if id in st.procs {
      RecordFailShape(Stopped(st, id), id);
    }
  }

  // When everything is watched.

  /** Reapers wait for commands already started. */
  ghost predicate PastOnly(w: Watched) {
    forall id, p | (id, p) in w.reapers :: p < w.st.nextProc
  }

  lemma StepPast(cfg: Scheduling, w: Watched, s: Step)
    requires Good(cfg) && Inv(cfg, w.st) && PastOnly(w) && CanStep(cfg, w, s)
    ensures PastOnly(After(cfg, w, s)) && Inv(cfg, After(cfg, w, s).st)
  {
    hide Apply, Enabled, Core, CodingOK, FlightOK;
    StepInv(cfg, w.st, s.ev);
    StepCommands(cfg, w.st, s.ev);
    KnownLaunches(cfg, Apply(cfg, w.st, s.ev));
  }

  lemma KnownLaunches(cfg: Scheduling, st: State)
    requires Inv(cfg, st)
    ensures forall id | id in st.procs :: st.procs[id].cmd < st.nextProc
  {
  }

  /** A step keeps every command watched exactly when it reaps none early. */
  lemma StepWatchedExactlyWhen(cfg: Scheduling, w: Watched, s: Step)
    requires Good(cfg) && Inv(cfg, w.st) && PastOnly(w) && AllWatched(w) && CanStep(cfg, w, s)
    ensures AllWatched(After(cfg, w, s)) <==> s.early == {}
    ensures PastOnly(After(cfg, w, s))
  {
    hide Apply, Enabled, Inv;
    var st' := Apply(cfg, w.st, s.ev);
    StepCommands(cfg, w.st, s.ev);
    StepPast(cfg, w, s);
    if s.early == {} {
      forall id | id in st'.procs && st'.procs[id].cmd != 0 ensures (id, st'.procs[id].cmd) in After(cfg, w, s).reapers {
        if !Started(w.st, st', id) {
          NotJustReaped(cfg, w.st, s.ev, id);
        }
      }
    } else {
      var p :| p in s.early;
      var id :| Launched(w.st, st', id) && st'.procs[id].cmd == p;
      assert (id, p) !in w.reapers;
      assert (id, p) !in After(cfg, w, s).reapers;
    }
  }

  lemma NotJustReaped(cfg: Scheduling, st: State, ev: Event, id: string)
    requires var st' := Apply(cfg, st, ev); id in st'.procs && st'.procs[id].cmd != 0
    ensures ev.Reaped? ==> (ev.id, ev.proc) != (id, Apply(cfg, st, ev).procs[id].cmd)
  {
    hide Reap;
    if ev.Reaped? && ev.proc != 0 {
      ReapedIsGone(cfg, st, ev.id, ev.proc, ev.o);
    }
  }

  lemma {:induction false} WatchedExactlyWhen(cfg: Scheduling, w: Watched, steps: seq<Step>)
    requires Good(cfg) && Inv(cfg, w.st) && PastOnly(w) && AllWatched(w) && CanRun(cfg, w, steps)
    ensures AlwaysWatched(cfg, w, steps) <==> NoneEarly(steps)
    decreases |steps|
  {
    hide Inv, AllWatched, PastOnly, CanStep, After;
    if steps != [] {
      StepWatchedExactlyWhen(cfg, w, steps[0]);
      if steps[0].early == {} {
        StepPast(cfg, w, steps[0]);
        WatchedExactlyWhen(cfg, After(cfg, w, steps[0]), steps[1..]);
        assert NoneEarly(steps) <==> NoneEarly(steps[1..]) by { FirstNotEarly(steps); }
      } else {
        NotAlways(cfg, After(cfg, w, steps[0]), steps[1..]);
      }
    }
  }

  lemma FirstNotEarly(steps: seq<Step>)
    requires steps != [] && steps[0].early == {}
    ensures NoneEarly(steps) <==> NoneEarly(steps[1..])
  {
    if NoneEarly(steps[1..]) {
      forall i | 0 <= i < |steps| ensures steps[i].early == {} {
        assert i > 0 ==> steps[i] == steps[1..][i - 1];
      }
    }
  }

  lemma NotAlways(cfg: Scheduling, w: Watched, steps: seq<Step>)
    requires !AllWatched(w)
    ensures !AlwaysWatched(cfg, w, steps)
  {
  }

  /** In every state of a run each command a slot holds will be reported when it exits, if
      and only if no command exits, and is reaped, between its start and the registration
      of its slot. */
  lemma ReportedExactlyWhen(cfg: Scheduling, steps: seq<Step>)
    requires Good(cfg) && CanRun(cfg, NOBODY, steps)
    ensures AlwaysWatched(cfg, NOBODY, steps) <==> NoneEarly(steps)
  {
    InitInv(cfg);
    WatchedExactlyWhen(cfg, NOBODY, steps);
  }

  // What that means for a coding model.

  /** The registered coding model holds a command whose reaper is gone. */
  ghost predicate Stuck(cfg: Scheduling, w: Watched, c: string) {
    && w.st.codingModel == c && c != "" && c in w.st.procs && At(cfg, c).mode == Coding
    && w.st.procs[c].cmd != 0 && (c, w.st.procs[c].cmd) !in w.reapers
  }

  /** The step asks for no other coding model, and for background ones only while the lease
      is active; it is neither the start nor the lease branch. */
  ghost predicate Spares(cfg: Scheduling, st: State, ev: Event, c: string) {
    match ev
    case Ask(id, o) => id == c || (At(cfg, id).mode == Background && LeaseActive(cfg, st))
    case Start(o) => false
    case LeaseTick(o) => false
    case _ => true
  }

  /** c keeps its place: the registered model, with the same command behind the same channel. */
  ghost predicate Keeps(st: State, st': State, c: string) {
    && c in st.procs && c in st'.procs && st'.codingModel == st.codingModel
    && st'.procs[c].cmd == st.procs[c].cmd && st'.procs[c].ch == st.procs[c].ch && st'.nextProc >= st.nextProc
  }

  lemma CodingHolds(cfg: Scheduling, st: State, c: string)
    requires c in st.procs && st.procs[c].cmd != 0 && At(cfg, c).mode == Coding
    ensures Runs(st, c) && CodingRunning(cfg, st)
  {
  }

  lemma AcquireSpares(cfg: Scheduling, st: State, x: string, o: Oracle, c: string)
    requires Good(cfg) && Core(cfg, st) && CodingOK(cfg, st) && Known(cfg, x) && (CodingRunning(cfg, st) ==> Survives(cfg, x))
    requires c in st.procs && At(cfg, c).mode == Coding && Acquire(cfg, st, x, o).Some?
    ensures Keeps(st, Acquire(cfg, st, x, o).value, c)
  {
    hide CodingRunning, Runs, Owners, Suspend, Keeps, Good, Core, CodingOK, Survives;
    if At(cfg, x).gpu != "" && Owners(cfg, st, x) != {} {
      var v := FirstOwner(cfg, st, x, o);
      ArbitrationSparesCoding(cfg, st, x);
      OwnerHasSlot(cfg, st, x, v);
      SuspendSpares(st, v, c);
    } else {
      KeepsItself(st, c);
    }
  }

  lemma OwnerHasSlot(cfg: Scheduling, st: State, x: string, v: string)
    requires v in Owners(cfg, st, x)
    ensures v in st.procs
  {
  }

  lemma SuspendSpares(st: State, v: string, c: string)
    requires c in st.procs && v in st.procs && v != c
    ensures Keeps(st, Suspend(st, v), c)
  {
  }

  lemma KeepsItself(st: State, c: string)
    requires c in st.procs
    ensures Keeps(st, st, c)
  {
  }

  lemma RelaunchSpares(cfg: Scheduling, st: State, x: string, o: Oracle, c: string)
    requires c in st.procs && c != x
    ensures Keeps(st, Relaunch(cfg, st, x, o), c)
  {
    FreePortShape(cfg, st, x, o);
  }

  lemma RestartSpares(cfg: Scheduling, st: State, x: string, o: Oracle, c: string)
    requires Good(cfg) && Inv(cfg, st) && c in st.procs && At(cfg, c).mode == Coding
    ensures Keeps(st, Restart(cfg, st, x, o), c)
  {
    hide Relaunch, Acquire, Keeps, Core, CodingOK, FlightOK, Good, Runs, CodingRunning;
    KeepsItself(st, c);
    if NeedRestart(cfg, st, x) && Acquire(cfg, st, x, o).Some? {
      var s1 := Acquire(cfg, st, x, o).value;
      RestartGuarded(cfg, st, x);
      AcquireSpares(cfg, st, x, o, c);
      KeepsSlot(st, s1, c);
      RelaunchSpares(cfg, s1, x, o, c);
      KeepsOn(st, s1, Relaunch(cfg, s1, x, o), c);
    }
  }

  lemma KeepsSlot(st: State, st': State, c: string)
    requires Keeps(st, st', c)
    ensures c in st'.procs
  {
  }

  lemma KeepsOn(a: State, b: State, d: State, c: string)
    requires Keeps(a, b, c) && Keeps(b, d, c)
    ensures Keeps(a, d, c)
  {
  }

  lemma LaunchNext(cfg: Scheduling, st: State, x: string, o: Oracle)
    ensures Launch(cfg, st, x, o).nextProc >= st.nextProc
  {
    FreePortShape(cfg, st, x, o);
  }

  lemma AloneSpares(cfg: Scheduling, st: State, x: string, o: Oracle, c: string)
    requires c in st.procs && c != x
    ensures Keeps(st, LaunchAlone(cfg, st, x, o), c)
  {
    hide Launch;
    LaunchShape(cfg, st, x, o);
    LaunchNext(cfg, st, x, o);
  }

  lemma OnDemandSpares(cfg: Scheduling, st: State, x: string, o: Oracle, c: string)
    requires Good(cfg) && Inv(cfg, st) && Known(cfg, x) && (CodingRunning(cfg, st) ==> Survives(cfg, x))
    requires c in st.procs && At(cfg, c).mode == Coding && c != x
    ensures Keeps(st, EnsureOnDemand(cfg, st, x, o).0, c)
  {
    hide Acquire, LaunchAlone, Core, CodingOK, FlightOK, CodingRunning, Runs, Preempt, Good;
    PreemptKeeps(st, Background, x, c);
    if Acquire(cfg, st, x, o).Some? {
      AcquireSpares(cfg, st, x, o, c);
      AloneSpares(cfg, Acquire(cfg, st, x, o).value, x, o, c);
    }
  }

  lemma PreemptKeeps(st: State, mode: Mode, target: string, c: string)
    requires c in st.procs
    ensures Keeps(st, Preempt(st, mode, target), c)
  {
  }

  lemma BackgroundSpares(cfg: Scheduling, st: State, x: string, o: Oracle, c: string)
    requires Good(cfg) && Inv(cfg, st) && Known(cfg, x) && Survives(cfg, x) && st.codingModel != "" && LeaseActive(cfg, st)
    requires c in st.procs && At(cfg, c).mode == Coding
    ensures Keeps(st, EnsureBackground(cfg, st, x, o).0, c)
  {
    hide Core, CodingOK, FlightOK, Restart, EnsureOnDemand, LeaseActive, CodingRunning, Runs;
    RestartSpares(cfg, st, x, o, c);
    OnDemandSpares(cfg, st, x, o, c);
  }

  /** c's own request finds it running. */
  lemma OwnAsk(cfg: Scheduling, st: State, c: string, o: Oracle)
    requires At(cfg, c).mode == Coding && Runs(st, c)
    ensures Keeps(st, Request(cfg, st, c, o).0, c)
  {
    hide SwitchTo, CodingRunning;
    if Known(cfg, c) && c != "" && c != PROXY_MODEL_ID {
      RequestIsGuarded(cfg, st, c, o);
    }
  }

  lemma AskSpares(cfg: Scheduling, st: State, x: string, o: Oracle, c: string)
    requires Good(cfg) && Inv(cfg, st) && c != "" && st.codingModel == c && c in st.procs && At(cfg, c).mode == Coding
    requires st.procs[c].cmd != 0 && Spares(cfg, st, Ask(x, o), c)
    ensures Keeps(st, Request(cfg, st, x, o).0, c)
  {
    hide Core, CodingOK, FlightOK, EnsureBackground, LeaseActive, CodingRunning, Runs;
    CodingHolds(cfg, st, c);
    if x == c {
      OwnAsk(cfg, st, c, o);
    } else if Known(cfg, x) && x != "" && x != PROXY_MODEL_ID {
      var s1 := TouchFor(st, x, Background);
      RequestIsGuarded(cfg, st, x, o);
      TouchInv(cfg, st, x, Background);
      TouchLease(cfg, st, x);
      if Survives(cfg, x) {
        BackgroundSpares(cfg, s1, x, o, c);
      }
    }
  }

  lemma MarkAllKeeps(cfg: Scheduling, st: State, ids: seq<string>, o: Oracle, c: string)
    requires c in st.procs
    ensures Keeps(st, MarkAll(cfg, st, ids, o), c)
    decreases |ids|
  {
    if ids != [] {
      MarkKeeps(cfg, st, ids[0], o, c);
      MarkAllKeeps(cfg, MarkReady(cfg, st, ids[0], o), ids[1..], o, c);
    }
  }

  lemma MarkKeeps(cfg: Scheduling, st: State, id: string, o: Oracle, c: string)
    requires c in st.procs
    ensures Keeps(st, MarkReady(cfg, st, id, o), c)
  {
  }

  lemma ReapKeeps(cfg: Scheduling, st: State, id: string, proc: nat, o: Oracle, c: string)
    requires c in st.procs && (id, proc) != (c, st.procs[c].cmd)
    ensures Keeps(st, Reap(cfg, st, id, proc, o), c)
  {
    hide Listens, RecordFail;
    if id in st.procs {
      FailKeeps(Stopped(st, id), id, c);
    }
  }

  lemma FailKeeps(st: State, id: string, c: string)
    requires c in st.procs
    ensures Keeps(st, RecordFail(st, id), c)
  {
  }

  lemma VisitKeeps(cfg: Scheduling, st: State, id: string, o: Oracle, c: string)
    requires Good(cfg) && Inv(cfg, st) && c in st.procs && st.procs[c].cmd != 0 && At(cfg, c).mode == Coding
    ensures Keeps(st, Visit(cfg, st, id, o), c)
  {
    hide Core, CodingOK, FlightOK, Restart, MarkReady, IdleForSleep, Listens, Good, Keeps, Forgotten, Suspend;
    KeepsItself(st, c);
    if id in st.procs {
      MarkKeeps(cfg, st, id, o, c);
      if id != c && SleepsNow(cfg, st, id) {
        SuspendSpares(st, id, c);
      }
      if Gone(cfg, st, id, o) {
        ForgottenInv(cfg, st, id);
        ForgetKeeps(st, id, c);
        KeepsSlot(st, Forgotten(st, id), c);
        RestartSpares(cfg, Forgotten(st, id), id, o, c);
        KeepsOn(st, Forgotten(st, id), Restart(cfg, Forgotten(st, id), id, o), c);
      }
    }
  }

  lemma ForgetKeeps(st: State, id: string, c: string)
    requires id in st.procs && c in st.procs
    ensures Keeps(st, Forgotten(st, id), c)
  {
  }

  lemma StepKeeps(cfg: Scheduling, st: State, ev: Event, c: string)
    requires Good(cfg) && Inv(cfg, st) && Enabled(cfg, st, ev)
    requires c != "" && st.codingModel == c && c in st.procs && At(cfg, c).mode == Coding && st.procs[c].cmd != 0
    requires Spares(cfg, st, ev, c) && (ev.Reaped? ==> (ev.id, ev.proc) != (c, st.procs[c].cmd))
    ensures Keeps(st, Apply(cfg, st, ev), c)
  {
    hide Inv, Request, Visit, MarkAll, MarkReady, Reap, LeaseActive, VisitLocks;
    match ev
    case Ask(id, o) => AskSpares(cfg, st, id, o, c);
    case Ready(id, o) => MarkKeeps(cfg, st, id, o, c);
    case Finish(oks, o) => MarkAllKeeps(cfg, st, oks, o, c);
    case Reaped(id, proc, o) => ReapKeeps(cfg, st, id, proc, o, c);
    case Visited(id, o) => VisitKeeps(cfg, st, id, o, c);
    case Recovered(o) => CodingHolds(cfg, st, c);
    case _ =>
  }

  /** A run that spares c throughout. */
  ghost predicate SparesAll(cfg: Scheduling, w: Watched, steps: seq<Step>, c: string)
    decreases |steps|
  {
    steps != [] ==> Spares(cfg, w.st, steps[0].ev, c) && SparesAll(cfg, After(cfg, w, steps[0]), steps[1..], c)
  }

  lemma StuckStep(cfg: Scheduling, w: Watched, s: Step, c: string)
    requires Good(cfg) && Inv(cfg, w.st) && PastOnly(w) && CanStep(cfg, w, s) && Stuck(cfg, w, c) && Spares(cfg, w.st, s.ev, c)
    ensures Stuck(cfg, After(cfg, w, s), c) && Keeps(w.st, After(cfg, w, s).st, c)
  {
    hide Apply, Enabled, Core, CodingOK, FlightOK, Spares;
    StepKeeps(cfg, w.st, s.ev, c);
    KnownLaunches(cfg, w.st);
  }

  /** Whether its process lives or not, a stuck coding model stays registered and counts as
      running, and no probe pass recovers it, as long as the scheduler is asked for nothing
      but it, and for background models only while its lease is active. */
  lemma {:induction false} StuckStays(cfg: Scheduling, w: Watched, steps: seq<Step>, c: string)
    requires Good(cfg) && Inv(cfg, w.st) && PastOnly(w) && Stuck(cfg, w, c)
    requires CanRun(cfg, w, steps) && SparesAll(cfg, w, steps, c)
    ensures var w' := Ran(cfg, w, steps);
      && Stuck(cfg, w', c) && Runs(w'.st, c) && w'.st.procs[c].ch == w.st.procs[c].ch && !DeadNeverReady(w'.st)
    decreases |steps|
  {
    hide Inv, PastOnly, CanStep, After, Spares, Stuck;
    if steps == [] {
      StuckRuns(cfg, w, c);
    } else {
      StuckStep(cfg, w, steps[0], c);
      StepPast(cfg, w, steps[0]);
      StuckStays(cfg, After(cfg, w, steps[0]), steps[1..], c);
    }
  }

  lemma StuckRuns(cfg: Scheduling, w: Watched, c: string)
    requires Stuck(cfg, w, c)
    ensures Runs(w.st, c) && !DeadNeverReady(w.st) && c in w.st.procs
  {
  }

  /** Its own requests start nothing: each is handed the channel it was left with, and
      renews the lease. */
  lemma StuckRequests(cfg: Scheduling, w: Watched, c: string, o: Oracle)
    requires Stuck(cfg, w, c) && Known(cfg, c) && c != PROXY_MODEL_ID
    ensures Request(cfg, w.st, c, o) == (w.st.(lastCodingAt := w.st.now), Granted(w.st.procs[c].ch))
  {
    RequestIsGuarded(cfg, w.st, c, o);
  }

  /** If its reaper still waits, the exit is reported and at most two steps more restore the
      startup set. */
  lemma WatchedRecovers(cfg: Scheduling, w: Watched, c: string, o: Oracle) returns (more: seq<Event>)
    requires Good(cfg) && Inv(cfg, w.st) && w.st.flight == Idle && cfg.lease > 0
    requires c != "" && w.st.codingModel == c && c in w.st.procs && w.st.procs[c].cmd != 0
    requires (c, w.st.procs[c].cmd) in w.reapers
    requires IsGroup(cfg, o.group) && o.group != [] && o.listening == {}
    ensures var reaped := Step(Reaped(c, w.st.procs[c].cmd, o), {});
      && CanStep(cfg, w, reaped)
      && IsRun(cfg, After(cfg, w, reaped).st, more)
      && BackToGroup(cfg, Exec(cfg, After(cfg, w, reaped).st, more))
    ensures |more| <= 2 && forall ev :: ev in more ==> IsRecovery(ev)
  {
    hide Core, FlightOK, BackToGroup, IsRun, Exec, CodingOK;
    var proc := w.st.procs[c].cmd;
    var st1 := Reap(cfg, w.st, c, proc, o);
    ReapInv(cfg, w.st, c, proc, o);
    ReapFlight(cfg, w.st, c, proc, o);
    ReapStops(cfg, w.st, c, o);
    more := DeadStateRecovers(cfg, st1, o);
  }

  lemma ReapStops(cfg: Scheduling, st: State, c: string, o: Oracle)
    requires c in st.procs && st.procs[c].cmd != 0 && o.listening == {}
    ensures var st' := Reap(cfg, st, c, st.procs[c].cmd, o); !Runs(st', c) && st'.codingModel == st.codingModel
  {
  }

  /** From the initial state: a coding model's command exits at once, and the model is
      stuck. */
  lemma StuckRun(cfg: Scheduling, c: string, o: Oracle) returns (s: Step)
    requires Good(cfg) && Known(cfg, c) && c != "" && c != PROXY_MODEL_ID && At(cfg, c).mode == Coding
    requires Starts(cfg, c, o) && IsGroup(cfg, o.group)
    ensures CanStep(cfg, NOBODY, s) && Stuck(cfg, After(cfg, NOBODY, s), c) && PastOnly(After(cfg, NOBODY, s))
  {
    hide Starts, SwitchTo, Core, CodingOK, FlightOK, Enabled, Apply;
    InitInv(cfg);
    var st := TouchFor(INIT, c, Coding);
    TouchInv(cfg, INIT, c, Coding);
    AskFirst(cfg, c, o);
    SwitchAlone(cfg, st, c, o);
    SwitchShape(cfg, st, [c], Coding, o);
    StepCommands(cfg, INIT, Ask(c, o));
    s := Step(Ask(c, o), {Apply(cfg, INIT, Ask(c, o)).procs[c].cmd});
    assert Launched(INIT, Apply(cfg, INIT, Ask(c, o)), c);
    StepPast(cfg, NOBODY, s);
  }

  lemma AskFirst(cfg: Scheduling, c: string, o: Oracle)
    requires Known(cfg, c) && c != "" && c != PROXY_MODEL_ID && At(cfg, c).mode == Coding && IsGroup(cfg, o.group)
    ensures Enabled(cfg, INIT, Ask(c, o))
    ensures Apply(cfg, INIT, Ask(c, o)) == SwitchTo(cfg, TouchFor(INIT, c, Coding), [c], Coding, o)
  {
    hide SwitchTo;
    RequestIsGuarded(cfg, INIT, c, o);
  }
}
