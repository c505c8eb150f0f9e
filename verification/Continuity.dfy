/** Which processes a run leaves alone: resident and GPU-less members keep their process,
    and sleeping models stay asleep. */
module Continuity {
  import opened Text
  import opened Config
  import opened Machine
  import opened Invariants
  import opened Steps
  import opened Moves
  import opened Safety

  /** A background model that switches spare and whose port nothing a run brings up can
      take from it. */
  ghost predicate Pinned(cfg: Scheduling, id: string, asSpelled: bool) {
    Known(cfg, id) && Survives(cfg, id) && forall k | Spelling(k, asSpelled) :: !Conflict(cfg, k, id)
  }

  /** In runs that spell ids as configured, so do the slots. */
  ghost predicate Spelled(cfg: Scheduling, st: State, asSpelled: bool) {
    asSpelled ==> ProperOK(cfg, st)
  }

  /** id still runs the process it ran, alive if it was, behind the same channel. */
  ghost predicate SameProcess(st: State, st': State, id: string) {
    && Runs(st, id) && Runs(st', id)
    && st'.procs[id].Proc() == st.procs[id].Proc() && st'.procs[id].ch == st.procs[id].ch
    && (st.procs[id].Proc() in st.live ==> st.procs[id].Proc() in st'.live)
  }

  /** The ways a process comes to its end by itself: its wrapper exits with no server left
      listening, its detached server exits or falls silent before it was ready, or the
      model has been idle for its sleep timeout. */
  ghost predicate OwnEnd(cfg: Scheduling, st: State, ev: Event, id: string) {
    && id in st.procs
    && (|| (Reaps(cfg, ev, st, id) && !Listens(cfg, st, id, st.procs[id], ev.o))
        || (ev.Exited? && ev.proc == st.procs[id].Proc())
        || (ev.Visited? && ev.id == id
            && (SleepsNow(cfg, st, id) || (!st.procs[id].readyOK && Gone(cfg, st, id, ev.o)))))
  }

  lemma NotAVictim(cfg: Scheduling, st: State, k: string, id: string, o: Oracle, asSpelled: bool)
    requires KeysOK(cfg, st) && CommandsOK(cfg, st)
    requires Known(cfg, k) && At(cfg, k).command != "" && Beside(cfg, st, k)
    requires Pinned(cfg, id, asSpelled) && Spelling(k, asSpelled)
    ensures id !in PortVictims(cfg, st, k, o)
  {
    VictimsConflict(cfg, st, k, o);
  }

  lemma FreePortPinned(cfg: Scheduling, st: State, k: string, id: string, o: Oracle)
    requires LaunchesOK(st) && Runs(st, id) && id !in PortVictims(cfg, st, k, o)
    ensures SameProcess(st, FreePort(cfg, st, k, o), id)
  {
    FreePortShape(cfg, st, k, o);
  }

  lemma MarkReadyPinned(cfg: Scheduling, st: State, k: string, id: string, o: Oracle)
    requires Runs(st, id)
    ensures SameProcess(st, MarkReady(cfg, st, k, o), id)
  {
  }

  lemma StopAllPinned(cfg: Scheduling, st: State, id: string)
    requires LaunchesOK(st) && Runs(st, id) && Survives(cfg, id)
    ensures SameProcess(st, StopAll(cfg, st), id)
  {
  }

  lemma SuspendPinned(st: State, k: string, id: string)
    requires LaunchesOK(st) && Runs(st, id) && k in st.procs && k != id
    ensures SameProcess(st, Suspend(st, k), id)
  {
  }

  lemma PlacePinned(st: State, k: string, started: bool, id: string)
    requires Runs(st, id) && k != id
    ensures SameProcess(st, Place(st, k, started), id)
  {
  }

  lemma RerunPinned(st: State, k: string, id: string)
    requires Runs(st, id) && k in st.procs && k != id
    ensures SameProcess(st, Rerun(st, k), id)
  {
  }

  lemma StoppedPinned(st: State, k: string, id: string)
    requires LaunchesOK(st) && Runs(st, id) && k in st.procs && k != id && st.procs[k].cmd != 0
    ensures SameProcess(st, Stopped(st, k), id)
  {
    assert st.procs[k].Proc() == st.procs[k].cmd;
  }

  lemma AdoptedPinned(st: State, k: string, id: string)
    requires Runs(st, id) && k in st.procs && k != id
    ensures SameProcess(st, Adopted(st, k), id)
  {
  }

  lemma ForgottenPinned(st: State, k: string, id: string)
    requires Runs(st, id) && k in st.procs && k != id
    ensures SameProcess(st, Forgotten(st, k), id)
  {
  }

  lemma KillPinned(st: State, p: nat, id: string)
    requires Runs(st, id) && p != st.procs[id].Proc()
    ensures SameProcess(st, st.(live := st.live - {p}), id)
  {
  }

  /** The request, if ev is one, is spelled so. */
  predicate AsksSpelled(ev: Event, asSpelled: bool) {
    ev.Ask? ==> Spelling(ev.id, asSpelled)
  }

  /** A port is freed for a model that has a slot, is in the startup set, or is asked for. */
  lemma FreeSpelled(cfg: Scheduling, ev: Event, st: State, k: string, o: Oracle, asSpelled: bool)
    requires Good(cfg) && Spelled(cfg, st, asSpelled) && AsksSpelled(ev, asSpelled) && Fine(cfg, ev, st, Free(k, o))
    ensures Spelling(k, asSpelled)
  {
  }

  lemma PinnedMove(cfg: Scheduling, ev: Event, st: State, m: Move, id: string, asSpelled: bool)
    requires Good(cfg) && Core(cfg, st) && CommandsOK(cfg, st) && Fine(cfg, ev, st, m)
    requires Spelled(cfg, st, asSpelled) && AsksSpelled(ev, asSpelled)
    requires Pinned(cfg, id, asSpelled) && Runs(st, id)
    requires ev.Reaped? || ev.Visited? ==> ev.id != id
    requires ev.Exited? ==> ev.proc != st.procs[id].Proc()
    ensures SameProcess(st, Do(cfg, st, m), id)
  {
    match m
    case Mark(k, o) => MarkReadyPinned(cfg, st, k, id, o);
    case Sleep(k) => SuspendPinned(st, k, id);
    case Evict(k) => SuspendPinned(st, k, id);
    case Free(k, o) =>
      FreeSpelled(cfg, ev, st, k, o, asSpelled);
      NotAVictim(cfg, st, k, id, o, asSpelled);
      FreePortPinned(cfg, st, k, id, o);
    case Clear => StopAllPinned(cfg, st, id);
    case Put(k, started) => PlacePinned(st, k, started, id);
    case Again(k) => RerunPinned(st, k, id);
    case Stop(k) => StoppedPinned(st, k, id);
    case Kill(p) => KillPinned(st, p, id);
    case Adopt(k) => AdoptedPinned(st, k, id);
    case Forget(k) => ForgottenPinned(st, k, id);
    case Book(to) => assert SameProcess(st, to, id);
  }

  lemma MoveSpelled(cfg: Scheduling, ev: Event, st: State, m: Move, asSpelled: bool)
    requires Spelled(cfg, st, asSpelled) && AsksSpelled(ev, asSpelled) && Fine(cfg, ev, st, m)
    ensures Spelled(cfg, Do(cfg, st, m), asSpelled)
  {
    if asSpelled {
      MoveProper(cfg, ev, st, m);
    }
  }

  lemma {:induction false} PinnedChain(
      cfg: Scheduling, ev: Event, st: State, ms: seq<Move>, st': State, id: string, asSpelled: bool)
    requires Good(cfg) && Core(cfg, st) && CommandsOK(cfg, st) && Chain(cfg, ev, st, ms, st')
    requires Spelled(cfg, st, asSpelled) && AsksSpelled(ev, asSpelled)
    requires Pinned(cfg, id, asSpelled) && Runs(st, id)
    requires ev.Reaped? || ev.Visited? ==> ev.id != id
    requires ev.Exited? ==> ev.proc != st.procs[id].Proc()
    ensures SameProcess(st, st', id) && Spelled(cfg, st', asSpelled)
    decreases |ms|
  {
    hide Good, Core, CommandsOK, Pinned, Spelled, Fine, Do;
    if ms != [] {
      MoveCore(cfg, ev, st, ms[0]);
      MoveCommands(cfg, ev, st, ms[0]);
      PinnedMove(cfg, ev, st, ms[0], id, asSpelled);
      MoveSpelled(cfg, ev, st, ms[0], asSpelled);
      PinnedChain(cfg, ev, Do(cfg, st, ms[0]), ms[1..], st', id, asSpelled);
    }
  }

  /** A probe visit that does not end the process may mark it ready, no more. */
  lemma VisitPinned(cfg: Scheduling, st: State, ev: Event, id: string)
    requires Lifecycle(st) && ev.Visited? && ev.id == id && Runs(st, id) && !OwnEnd(cfg, st, ev, id)
    ensures SameProcess(st, Visit(cfg, st, id, ev.o), id)
  {
    assert SlotOK(st, st.procs[id]);
    MarkReadyPinned(cfg, st, id, id, ev.o);
  }

  lemma ReapPinned(cfg: Scheduling, st: State, ev: Event, id: string)
    requires Lifecycle(st) && ev.Reaped? && ev.id == id && Runs(st, id) && !OwnEnd(cfg, st, ev, id)
    ensures SameProcess(st, Reap(cfg, st, id, ev.proc, ev.o), id)
  {
  }

  lemma StepKeepsProcess(cfg: Scheduling, st: State, ev: Event, id: string, asSpelled: bool)
    requires Good(cfg) && Safe(cfg, st) && Enabled(cfg, st, ev)
    requires Spelled(cfg, st, asSpelled) && AsksSpelled(ev, asSpelled)
    requires Pinned(cfg, id, asSpelled) && Runs(st, id) && !OwnEnd(cfg, st, ev, id)
    ensures SameProcess(st, Apply(cfg, st, ev), id) && Safe(cfg, Apply(cfg, st, ev))
    ensures Spelled(cfg, Apply(cfg, st, ev), asSpelled)
  {
    hide Good, Pinned, Spelled;
    StepSafe(cfg, st, ev);
    var ms := StepMoves(cfg, st, ev);
    StepSpelled(cfg, st, ev, asSpelled);
    if ev.Visited? && ev.id == id {
      VisitPinned(cfg, st, ev, id);
    } else if ev.Reaped? && ev.id == id {
      ReapPinned(cfg, st, ev, id);
    } else {
      PinnedChain(cfg, ev, st, ms, Apply(cfg, st, ev), id, asSpelled);
    }
  }

  lemma StepSpelled(cfg: Scheduling, st: State, ev: Event, asSpelled: bool)
    requires Good(cfg) && Inv(cfg, st) && Enabled(cfg, st, ev)
    requires Spelled(cfg, st, asSpelled) && AsksSpelled(ev, asSpelled)
    ensures Spelled(cfg, Apply(cfg, st, ev), asSpelled)
  {
    hide Apply, Enabled, ProperOK;
    if asSpelled {
      var ms := StepMoves(cfg, st, ev);
      ChainProper(cfg, ev, st, ms, Apply(cfg, st, ev));
    }
  }

  /** No event of the run is id's own end. */
  ghost predicate Undisturbed(cfg: Scheduling, st: State, evs: seq<Event>, id: string)
    decreases |evs|
  {
    evs == [] || (!OwnEnd(cfg, st, evs[0], id) && Undisturbed(cfg, Apply(cfg, st, evs[0]), evs[1..], id))
  }

  /** Over any run of switches, evictions, restarts and probes, a running resident or
      GPU-less member keeps its process; only its own end can take it away. */
  lemma {:induction false} KeepsProcess(cfg: Scheduling, st: State, evs: seq<Event>, id: string, asSpelled: bool)
    requires Good(cfg) && Safe(cfg, st) && IsRun(cfg, st, evs)
    requires Spelled(cfg, st, asSpelled) && (asSpelled ==> Canonical(evs))
    requires Pinned(cfg, id, asSpelled) && Runs(st, id) && Undisturbed(cfg, st, evs, id)
    ensures SameProcess(st, Exec(cfg, st, evs), id)
    decreases |evs|
  {
    hide Good, Safe, Pinned, Spelled, OwnEnd, Apply, Enabled;
    if evs != [] {
      StepKeepsProcess(cfg, st, evs[0], id, asSpelled);
      KeepsProcess(cfg, Apply(cfg, st, evs[0]), evs[1..], id, asSpelled);
    }
  }

  // Sleeping models.

  /** A move disturbs a sleeping slot only on request, or by clearing it away in a switch. */
  lemma AsleepMove(cfg: Scheduling, ev: Event, st: State, m: Move, id: string)
    requires Core(cfg, st) && Fine(cfg, ev, st, m) && Asleep(st, id)
    requires ev.Ask? ==> ev.id != id
    requires Survives(cfg, id) || !Switches(ev)
    ensures id in Do(cfg, st, m).procs && Do(cfg, st, m).procs[id] == st.procs[id]
  {
    hide OneOwner, LaunchesOK, BackoffOK, MarkReady, FreePort, Beside, GPUFree, Books, Listens;
    assert SlotOK(st, st.procs[id]);
    match m
    case Mark(k, o) => MarkReadyOthers(cfg, st, k, o, id);
    case Free(k, o) => FreePortShape(cfg, st, k, o);
    case _ =>
  }

  lemma MarkReadyOthers(cfg: Scheduling, st: State, k: string, o: Oracle, id: string)
    requires id in st.procs && id != k
    ensures id in MarkReady(cfg, st, k, o).procs && MarkReady(cfg, st, k, o).procs[id] == st.procs[id]
  {
  }

  lemma {:induction false} AsleepChain(cfg: Scheduling, ev: Event, st: State, ms: seq<Move>, st': State, id: string)
    requires Core(cfg, st) && Chain(cfg, ev, st, ms, st') && Asleep(st, id)
    requires ev.Ask? ==> ev.id != id
    requires Survives(cfg, id) || !Switches(ev)
    ensures id in st'.procs && st'.procs[id] == st.procs[id]
    decreases |ms|
  {
    if ms != [] {
      MoveCore(cfg, ev, st, ms[0]);
      AsleepMove(cfg, ev, st, ms[0], id);
      AsleepChain(cfg, ev, Do(cfg, st, ms[0]), ms[1..], st', id);
    }
  }

  lemma {:induction false} ChainCodingModel(cfg: Scheduling, ev: Event, st: State, ms: seq<Move>, st': State)
    requires Core(cfg, st) && Chain(cfg, ev, st, ms, st') && !Switches(ev)
    ensures st'.codingModel == st.codingModel
    decreases |ms|
  {
    if ms != [] {
      MoveCore(cfg, ev, st, ms[0]);
      MoveCodingModel(cfg, ev, st, ms[0]);
      ChainCodingModel(cfg, ev, Do(cfg, st, ms[0]), ms[1..], st');
    }
  }

  lemma MoveCodingModel(cfg: Scheduling, ev: Event, st: State, m: Move)
    requires Fine(cfg, ev, st, m) && !Switches(ev)
    ensures Do(cfg, st, m).codingModel == st.codingModel
  {
    match m
    case Mark(id, o) => MarkReadySteady(cfg, st, id, o);
    case Free(id, o) => FreePortShape(cfg, st, id, o);
    case _ =>
  }

  lemma StepAsleep(cfg: Scheduling, st: State, ev: Event, id: string)
    requires Good(cfg) && Inv(cfg, st) && Enabled(cfg, st, ev)
    requires ev.Ask? ==> ev.id != id
    requires Asleep(st, id) && (Survives(cfg, id) || !Switches(ev))
    ensures var st' := Apply(cfg, st, ev);
      && Inv(cfg, st') && id in st'.procs && st'.procs[id] == st.procs[id]
      && (Switches(ev) || st'.codingModel == st.codingModel)
  {
    StepInv(cfg, st, ev);
    var ms := StepMoves(cfg, st, ev);
    AsleepChain(cfg, ev, st, ms, Apply(cfg, st, ev), id);
    if !Switches(ev) {
      ChainCodingModel(cfg, ev, st, ms, Apply(cfg, st, ev));
    }
  }

  ghost predicate NeverAsked(evs: seq<Event>, id: string)
    decreases |evs|
  {
    evs == [] || (!(evs[0].Ask? && evs[0].id == id) && NeverAsked(evs[1..], id))
  }

  /** No request and no initial start. */
  ghost predicate Unprompted(evs: seq<Event>)
    decreases |evs|
  {
    evs == [] || (!evs[0].Ask? && !evs[0].Start? && Unprompted(evs[1..]))
  }

  /** A sleeping survivor stays asleep through every run, switches included, in which it
      is not itself requested. */
  lemma {:induction false} SurvivorStaysAsleep(cfg: Scheduling, st: State, evs: seq<Event>, id: string)
    requires Good(cfg) && Inv(cfg, st) && IsRun(cfg, st, evs)
    requires Asleep(st, id) && Survives(cfg, id) && NeverAsked(evs, id)
    ensures var st' := Exec(cfg, st, evs); id in st'.procs && st'.procs[id] == st.procs[id]
    decreases |evs|
  {
    if evs != [] {
      StepAsleep(cfg, st, evs[0], id);
      SurvivorStaysAsleep(cfg, Apply(cfg, st, evs[0]), evs[1..], id);
    }
  }

  /** No flapping: with no coding model registered, nothing but a request or the initial
      start ever disturbs a sleeping slot, whatever its GPU. */
  lemma {:induction false} NoFlapping(cfg: Scheduling, st: State, evs: seq<Event>, id: string)
    requires Good(cfg) && Inv(cfg, st) && IsRun(cfg, st, evs)
    requires st.codingModel == "" && Asleep(st, id)
    requires Unprompted(evs)
    ensures var st' := Exec(cfg, st, evs); id in st'.procs && st'.procs[id] == st.procs[id]
    decreases |evs|
  {
    hide Apply, Core, CodingOK, FlightOK;
    if evs != [] {
      assert !Switches(evs[0]);
      StepAsleep(cfg, st, evs[0], id);
      NoFlapping(cfg, Apply(cfg, st, evs[0]), evs[1..], id);
    }
  }
}
