/** Safety over whole runs: what holds in every reachable state of the scheduler. */
module Safety {
  import opened Text
  import opened Config
  import opened Machine
  import opened Invariants
  import opened Steps
  import opened Moves

  /** Two background models with one port are swapped by the GPU arbiter. */
  ghost predicate NoPortClash(cfg: Scheduling) {
    forall a, b |
      && a in cfg.models && b in cfg.models && a != b
      && cfg.models[a].mode == Background && cfg.models[b].mode == Background
      && cfg.models[a].command != "" && cfg.models[b].command != ""
      && cfg.models[a].port > 0 && cfg.models[a].port == cfg.models[b].port ::
      cfg.models[a].gpu != "" && cfg.models[a].gpu == cfg.models[b].gpu
  }

  /** One port is always written as one origin (127.0.0.1 and localhost are two). */
  ghost predicate PortsNameOrigins(cfg: Scheduling) {
    forall a, b | a in cfg.models && b in cfg.models && cfg.models[a].port > 0 && cfg.models[a].port == cfg.models[b].port ::
      cfg.models[a].origin != "" && cfg.models[a].origin == cfg.models[b].origin
  }

  lemma AcceptedPorts(cfg: Scheduling)
    requires BackgroundOriginsAccepted(cfg) && PortsNameOrigins(cfg)
    ensures NoPortClash(cfg)
  {
  }

  /** Only configured commands run. */
  ghost predicate CommandsOK(cfg: Scheduling, st: State) {
    forall id | id in st.procs && st.procs[id].Proc() != 0 :: At(cfg, id).command != ""
  }

  /** Freeing the port for k can hit v's server: they share a port, and k may be launched
      while v runs. */
  ghost predicate Conflict(cfg: Scheduling, k: string, v: string) {
    && Known(cfg, k) && Known(cfg, v) && MayJoin(cfg, k, v)
    && At(cfg, k).command != "" && At(cfg, v).command != ""
    && At(cfg, v).port > 0 && At(cfg, v).port == At(cfg, k).port
  }

  /** So far, freeing a port only killed servers in conflict with the model launched. */
  ghost predicate FreedOK(cfg: Scheduling, st: State) {
    forall k, v | (k, v) in st.freed :: Conflict(cfg, k, v)
  }

  /** No running model outside the startup set is inside its backoff window. */
  ghost predicate WindowOK(cfg: Scheduling, st: State) {
    forall id :: Runs(st, id) && BackoffActive(st, id) ==> InGroup(cfg, id)
  }

  /** Every ready slot has an idle clock. */
  ghost predicate ClocksOK(st: State) {
    ClocksPast(st) && forall id | id in st.procs && st.procs[id].readyOK :: Anchored(st, id)
  }

  ghost predicate Safe(cfg: Scheduling, st: State) {
    Inv(cfg, st) && CommandsOK(cfg, st) && WindowOK(cfg, st) && FreedOK(cfg, st) && ClocksOK(st)
  }

  /** Only Put and Again make a slot run. */
  lemma MoveRuns(cfg: Scheduling, ev: Event, st: State, m: Move)
    requires Core(cfg, st) && Fine(cfg, ev, st, m)
    ensures forall x :: Runs(Do(cfg, st, m), x) ==> Runs(st, x) || ((m.Put? || m.Again?) && m.id == x)
  {
    match m
    case Mark(id, o) => MarkReadyCore(cfg, st, id, o);
    case Sleep(id) => SuspendCore(cfg, st, id);
    case Evict(id) => SuspendCore(cfg, st, id);
    case Stop(id) => StoppedCore(cfg, st, id);
    case Adopt(id) => AdoptedCore(cfg, st, id);
    case Forget(id) =>
    case Free(id, o) => FreePortCore(cfg, st, id, o);
    case Put(id, started) => PlaceRuns(st, id, started);
    case Again(id) => RerunRuns(st, id);
    case Clear => StopAllCore(cfg, st);
    case Kill(p) =>
    case Book(to) =>
  }

  /** Windows open through bookkeeping only. */
  lemma MoveWindows(cfg: Scheduling, ev: Event, st: State, m: Move, x: string)
    requires Fine(cfg, ev, st, m) && !m.Book?
    ensures BackoffActive(Do(cfg, st, m), x) ==> BackoffActive(st, x)
  {
    match m
    case Mark(id, o) => MarkReadyWindows(cfg, st, id, o, x);
    case Free(id, o) => FreePortTables(cfg, st, id, o);
    case _ =>
  }

  lemma MarkReadyWindows(cfg: Scheduling, st: State, id: string, o: Oracle, x: string)
    ensures BackoffActive(MarkReady(cfg, st, id, o), x) ==> BackoffActive(st, x)
  {
  }

  lemma MoveWindowOK(cfg: Scheduling, ev: Event, st: State, m: Move)
    requires Core(cfg, st) && WindowOK(cfg, st) && Fine(cfg, ev, st, m)
    ensures WindowOK(cfg, Do(cfg, st, m))
  {
    MoveRuns(cfg, ev, st, m);
    forall x | Runs(Do(cfg, st, m), x) && BackoffActive(Do(cfg, st, m), x) ensures InGroup(cfg, x) {
      if !m.Book? {
        MoveWindows(cfg, ev, st, m, x);
      }
    }
  }

  lemma VictimsConflict(cfg: Scheduling, st: State, id: string, o: Oracle)
    requires KeysOK(cfg, st) && CommandsOK(cfg, st)
    requires Known(cfg, id) && At(cfg, id).command != "" && Beside(cfg, st, id)
    ensures forall v :: v in PortVictims(cfg, st, id, o) ==> Conflict(cfg, id, v)
  {
    forall v | v in PortVictims(cfg, st, id, o) ensures Conflict(cfg, id, v) {
      assert Runs(st, v);
    }
  }

  lemma FreePortFreed(cfg: Scheduling, st: State, id: string, o: Oracle)
    requires KeysOK(cfg, st) && CommandsOK(cfg, st) && FreedOK(cfg, st)
    requires Known(cfg, id) && At(cfg, id).command != "" && Beside(cfg, st, id)
    ensures FreedOK(cfg, FreePort(cfg, st, id, o))
  {
    hide Conflict, Listens, Runs;
    VictimsConflict(cfg, st, id, o);
    var st' := FreePort(cfg, st, id, o);
    forall k, v | (k, v) in st'.freed ensures Conflict(cfg, k, v) {
      if (k, v) !in st.freed {
        assert k == id && v in PortVictims(cfg, st, id, o);
      }
    }
  }

  lemma MarkReadyProcs(cfg: Scheduling, st: State, id: string, o: Oracle)
    ensures var st' := MarkReady(cfg, st, id, o);
      && st'.freed == st.freed
      && forall x :: x in st'.procs ==> x in st.procs && st'.procs[x].Proc() == st.procs[x].Proc()
  {
  }

  lemma MoveCommands(cfg: Scheduling, ev: Event, st: State, m: Move)
    requires CommandsOK(cfg, st) && Fine(cfg, ev, st, m)
    ensures CommandsOK(cfg, Do(cfg, st, m))
  {
    match m
    case Mark(id, o) => MarkReadyProcs(cfg, st, id, o);
    case Free(id, o) => FreePortShape(cfg, st, id, o);
    case _ =>
  }

  lemma FreedKept(cfg: Scheduling, ev: Event, st: State, m: Move)
    requires Fine(cfg, ev, st, m) && !m.Free? && !m.Mark?
    ensures Do(cfg, st, m).freed == st.freed
  {
  }

  lemma MoveFreed(cfg: Scheduling, ev: Event, st: State, m: Move)
    requires Core(cfg, st) && CommandsOK(cfg, st) && FreedOK(cfg, st) && Fine(cfg, ev, st, m)
    ensures FreedOK(cfg, Do(cfg, st, m))
  {
    hide Conflict;
    match m
    case Mark(id, o) => MarkReadyProcs(cfg, st, id, o);
    case Free(id, o) => FreePortFreed(cfg, st, id, o);
    case _ => FreedKept(cfg, ev, st, m);
  }

  lemma MarkReadyClocks(cfg: Scheduling, st: State, id: string, o: Oracle)
    requires ClocksOK(st) && st.now > 0
    ensures ClocksOK(MarkReady(cfg, st, id, o))
  {
  }

  lemma FreePortClocks(cfg: Scheduling, st: State, id: string, o: Oracle)
    ensures var st' := FreePort(cfg, st, id, o);
      st'.procs == st.procs && st'.lastActiveAt == st.lastActiveAt && st'.now == st.now
  {
  }

  lemma MoveClocks(cfg: Scheduling, ev: Event, st: State, m: Move)
    requires ClocksOK(st) && st.now > 0 && Fine(cfg, ev, st, m)
    ensures ClocksOK(Do(cfg, st, m))
  {
    match m
    case Mark(id, o) => MarkReadyClocks(cfg, st, id, o);
    case Free(id, o) => FreePortClocks(cfg, st, id, o);
    case _ =>
  }

  lemma {:induction false} ChainSafe(cfg: Scheduling, ev: Event, st: State, ms: seq<Move>, st': State)
    requires Chain(cfg, ev, st, ms, st')
    requires Core(cfg, st) && CommandsOK(cfg, st) && WindowOK(cfg, st) && FreedOK(cfg, st) && ClocksOK(st)
    ensures Core(cfg, st') && CommandsOK(cfg, st') && WindowOK(cfg, st') && FreedOK(cfg, st') && ClocksOK(st')
    decreases |ms|
  {
    hide CommandsOK, WindowOK, FreedOK, ClocksOK, Fine, Do;
    hide KeysOK, OneOwner, Lifecycle, LaunchesOK, BackoffOK;
    if ms != [] {
      MoveCore(cfg, ev, st, ms[0]);
      MoveCommands(cfg, ev, st, ms[0]);
      MoveWindowOK(cfg, ev, st, ms[0]);
      MoveFreed(cfg, ev, st, ms[0]);
      MoveClocks(cfg, ev, st, ms[0]);
      ChainSafe(cfg, ev, Do(cfg, st, ms[0]), ms[1..], st');
    }
  }

  lemma StepSafe(cfg: Scheduling, st: State, ev: Event)
    requires Good(cfg) && Safe(cfg, st) && Enabled(cfg, st, ev)
    ensures Safe(cfg, Apply(cfg, st, ev))
  {
    hide Core, CommandsOK, WindowOK, FreedOK, ClocksOK, Apply, Enabled;
    StepInv(cfg, st, ev);
    var ms := StepMoves(cfg, st, ev);
    ChainSafe(cfg, ev, st, ms, Apply(cfg, st, ev));
  }

  lemma {:induction false} RunSafe(cfg: Scheduling, st: State, evs: seq<Event>)
    requires Good(cfg) && Safe(cfg, st) && IsRun(cfg, st, evs)
    ensures Safe(cfg, Exec(cfg, st, evs))
    decreases |evs|
  {
    hide Safe, Apply, Enabled;
    if evs != [] {
      StepSafe(cfg, st, evs[0]);
      RunSafe(cfg, Apply(cfg, st, evs[0]), evs[1..]);
    }
  }

  // Runs whose requests spell ids as configured.

  /** The spellings such runs, or any runs, can bring up. */
  predicate Spelling(id: string, asSpelled: bool) {
    asSpelled ==> TrimSpace(id) == id
  }

  /** Every slot goes by the id of its entry, now and in the history of kills. */
  ghost predicate ProperOK(cfg: Scheduling, st: State) {
    && (forall id :: id in st.procs ==> id in cfg.models)
    && (forall k, v :: (k, v) in st.freed ==> k in cfg.models && v in cfg.models)
  }

  lemma MoveProper(cfg: Scheduling, ev: Event, st: State, m: Move)
    requires ProperOK(cfg, st) && Fine(cfg, ev, st, m)
    requires ev.Ask? ==> TrimSpace(ev.id) == ev.id
    ensures ProperOK(cfg, Do(cfg, st, m))
  {
    match m
    case Mark(id, o) => MarkReadyProcs(cfg, st, id, o);
    case Free(id, o) => FreePortShape(cfg, st, id, o);
    case _ =>
  }

  lemma {:induction false} ChainProper(cfg: Scheduling, ev: Event, st: State, ms: seq<Move>, st': State)
    requires Chain(cfg, ev, st, ms, st') && ProperOK(cfg, st)
    requires ev.Ask? ==> TrimSpace(ev.id) == ev.id
    ensures ProperOK(cfg, st')
    decreases |ms|
  {
    hide ProperOK, Fine, Do;
    if ms != [] {
      MoveProper(cfg, ev, st, ms[0]);
      ChainProper(cfg, ev, Do(cfg, st, ms[0]), ms[1..], st');
    }
  }

  lemma {:induction false} RunProper(cfg: Scheduling, st: State, evs: seq<Event>)
    requires Good(cfg) && Inv(cfg, st) && ProperOK(cfg, st) && IsRun(cfg, st, evs) && Canonical(evs)
    ensures ProperOK(cfg, Exec(cfg, st, evs))
    decreases |evs|
  {
    hide Inv, ProperOK, Apply, Enabled;
    if evs != [] {
      StepInv(cfg, st, evs[0]);
      var ms := StepMoves(cfg, st, evs[0]);
      ChainProper(cfg, evs[0], st, ms, Apply(cfg, st, evs[0]));
      RunProper(cfg, Apply(cfg, st, evs[0]), evs[1..]);
    }
  }
}
