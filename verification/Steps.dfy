/** The invariant holds after every enabled step, hence in every reachable state. */
module Steps {
  import opened Text
  import opened Config
  import opened Machine
  import opened Invariants

  /** A step that keeps the slots' ids, wakes no coding process, suspends no coding slot
      and leaves the registered coding model alone keeps coding exclusive. */
  lemma CodingKept(cfg: Scheduling, st: State, st': State)
    requires CodingOK(cfg, st)
    requires st'.procs.Keys == st.procs.Keys && st'.codingModel == st.codingModel
    requires st'.lastCodingAt != 0 || st'.lastCodingAt == st.lastCodingAt
    requires st'.lastCodingAt <= st'.now
    requires forall x :: Runs(st', x) && At(cfg, x).mode == Coding ==> Runs(st, x)
    requires forall x :: Asleep(st', x) && At(cfg, x).mode == Coding ==> Asleep(st, x)
    ensures CodingOK(cfg, st')
  {
    forall x | Runs(st', x) && At(cfg, x).mode == Coding
      ensures st'.codingModel == x && forall b | b in st'.procs && b != x :: Survives(cfg, b)
    {
      assert Runs(st, x);
    }
    forall x | x in st'.procs && At(cfg, x).mode == Coding ensures !st'.procs[x].sleeping {
      assert x in st.procs;
      assert !Asleep(st, x);
    }
  }

  /** The registered switch is over, or still has its mode and its targets. */
  predicate SameFlight(st: State, st': State) {
    || st'.flight == Idle
    || (st'.flight.Switching? && st.flight.Switching? && st'.flight.mode == st.flight.mode
        && st'.flight.ids == st.flight.ids && st'.flight.wait == st.flight.wait)
  }

  lemma FlightKept(st: State, st': State)
    requires FlightOK(st)
    requires st'.procs.Keys == st.procs.Keys
    requires SameFlight(st, st')
    requires forall x :: Asleep(st', x) <==> Asleep(st, x)
    ensures FlightOK(st')
  {
    if st'.flight.Switching? {
      forall x | x in st'.flight.wait ensures !st'.procs[x].sleeping {
        assert !Asleep(st, x);
      }
      forall x | x in st'.flight.ids - st'.flight.wait ensures st'.procs[x].sleeping {
        assert Asleep(st, x);
      }
    }
  }

  /** GPU arbitration never meets a running coding process: the proxy turns away every
      request that could evict one, and the configuration reserves residents' GPUs. */
  lemma ArbitrationSparesCoding(cfg: Scheduling, st: State, id: string)
    requires Good(cfg) && Core(cfg, st) && CodingOK(cfg, st)
    requires Known(cfg, id) && At(cfg, id).gpu != ""
    requires CodingRunning(cfg, st) ==> Survives(cfg, id)
    ensures forall v :: v in Owners(cfg, st, id) ==> At(cfg, v).mode == Background
  {
    forall v | v in Owners(cfg, st, id) ensures At(cfg, v).mode == Background {
      assert Runs(st, v);
      KnownMode(cfg, v);
      assert At(cfg, v).mode == Coding ==> CodingRunning(cfg, st);
    }
  }

  /** Every slot present while coding runs survives a switch, or is the coding slot. */
  lemma BesideCoding(cfg: Scheduling, st: State, id: string)
    requires CodingOK(cfg, st) && id in st.procs && At(cfg, id).mode == Background && CodingRunning(cfg, st)
    ensures Survives(cfg, id)
  {
    var c :| c in st.procs && Runs(st, c) && At(cfg, c).mode == Coding;
  }

  /** A step that neither starts nor suspends anything keeps the invariant. */
  lemma SteadyInv(cfg: Scheduling, st: State, st': State)
    requires Inv(cfg, st) && Core(cfg, st') && Steady(st, st')
    requires forall x :: Runs(st', x) ==> Runs(st, x)
    ensures Inv(cfg, st')
  {
    CodingKept(cfg, st, st');
    FlightKept(st, st');
  }

  /** Nor does one that may only suspend or wake a slot that is not a coding one. */
  lemma SteadyButInv(cfg: Scheduling, st: State, st': State, id: string)
    requires Inv(cfg, st) && st.flight == Idle && Core(cfg, st') && SteadyBut(st, st', id)
    requires At(cfg, id).mode != Coding
    requires forall x :: Runs(st', x) ==> x == id || Runs(st, x)
    ensures Inv(cfg, st')
  {
    CodingKept(cfg, st, st');
  }

  lemma SuspendInv(cfg: Scheduling, st: State, id: string)
    requires Inv(cfg, st) && st.flight == Idle && id in st.procs && At(cfg, id).mode != Coding
    ensures Inv(cfg, Suspend(st, id))
  {
    SuspendCore(cfg, st, id);
    SteadyButInv(cfg, st, Suspend(st, id), id);
  }

  lemma AcquireInv(cfg: Scheduling, st: State, id: string, o: Oracle)
    requires Good(cfg) && Inv(cfg, st) && st.flight == Idle
    requires Known(cfg, id) && (CodingRunning(cfg, st) ==> Survives(cfg, id))
    requires Acquire(cfg, st, id, o).Some?
    ensures Inv(cfg, Acquire(cfg, st, id, o).value)
    ensures Acquire(cfg, st, id, o).value.flight == Idle
  {
    if At(cfg, id).gpu != "" && Owners(cfg, st, id) != {} {
      ArbitrationSparesCoding(cfg, st, id);
      SuspendInv(cfg, st, FirstOwner(cfg, st, id, o));
    }
  }

  lemma RelaunchInv(cfg: Scheduling, st: State, id: string, o: Oracle)
    requires Inv(cfg, st) && st.flight == Idle && GPUFree(cfg, st, id) && At(cfg, id).mode != Coding
    ensures Inv(cfg, Relaunch(cfg, st, id, o))
  {
    RelaunchCore(cfg, st, id, o);
    SteadyButInv(cfg, st, Relaunch(cfg, st, id, o), id);
  }

  lemma AcquireAndRelaunchInv(cfg: Scheduling, st: State, id: string, o: Oracle)
    requires Good(cfg) && Inv(cfg, st) && st.flight == Idle && Known(cfg, id) && At(cfg, id).mode == Background
    requires CodingRunning(cfg, st) ==> Survives(cfg, id)
    requires Acquire(cfg, st, id, o).Some?
    ensures Inv(cfg, Relaunch(cfg, Acquire(cfg, st, id, o).value, id, o))
  {
    AcquireInv(cfg, st, id, o);
    AcquireCore(cfg, st, id, o);
    RelaunchInv(cfg, Acquire(cfg, st, id, o).value, id, o);
  }

  lemma RestartInv(cfg: Scheduling, st: State, id: string, o: Oracle)
    requires Good(cfg) && Inv(cfg, st) && st.flight == Idle
    ensures Inv(cfg, Restart(cfg, st, id, o))
  {
    if NeedRestart(cfg, st, id) && Acquire(cfg, st, id, o).Some? {
      if CodingRunning(cfg, st) {
        BesideCoding(cfg, st, id);
      }
      AcquireAndRelaunchInv(cfg, st, id, o);
    }
  }

  lemma MarkReadyInv(cfg: Scheduling, st: State, id: string, o: Oracle)
    requires Inv(cfg, st) && (id in st.procs ==> !st.procs[id].sleeping)
    ensures Inv(cfg, MarkReady(cfg, st, id, o))
    ensures MarkReady(cfg, st, id, o).flight == st.flight
  {
    MarkReadyCore(cfg, st, id, o);
    MarkReadySteady(cfg, st, id, o);
    SteadyInv(cfg, st, MarkReady(cfg, st, id, o));
  }

  lemma {:induction false} MarkAllInv(cfg: Scheduling, st: State, ids: seq<string>, o: Oracle)
    requires Inv(cfg, st) && st.flight.Switching? && forall id :: id in ids ==> id in st.flight.wait
    ensures Inv(cfg, MarkAll(cfg, st, ids, o))
    decreases |ids|
  {
    if ids != [] {
      assert ids[0] in ids;
      MarkReadyInv(cfg, st, ids[0], o);
      MarkAllInv(cfg, MarkReady(cfg, st, ids[0], o), ids[1..], o);
    }
  }

  lemma RecordFailInv(cfg: Scheduling, st: State, id: string)
    requires Inv(cfg, st)
    ensures Inv(cfg, RecordFail(st, id))
  {
    RecordFailShape(st, id);
    RecordFailCore(cfg, st, id);
    SteadyInv(cfg, st, RecordFail(st, id));
  }

  lemma AdoptedInv(cfg: Scheduling, st: State, id: string)
    requires Inv(cfg, st) && id in st.procs && st.procs[id].cmd != 0
    ensures Inv(cfg, Adopted(st, id))
  {
    AdoptedCore(cfg, st, id);
    SteadyInv(cfg, st, Adopted(st, id));
  }

  lemma StoppedInv(cfg: Scheduling, st: State, id: string)
    requires Inv(cfg, st) && id in st.procs && st.procs[id].cmd != 0
    ensures Inv(cfg, Stopped(st, id))
  {
    StoppedCore(cfg, st, id);
    SteadyInv(cfg, st, Stopped(st, id));
  }

  lemma ReapInv(cfg: Scheduling, st: State, id: string, proc: nat, o: Oracle)
    requires Inv(cfg, st)
    ensures Inv(cfg, Reap(cfg, st, id, proc, o))
  {
    if id in st.procs && proc != 0 && st.procs[id].cmd == proc {
      if Listens(cfg, st, id, st.procs[id], o) {
        AdoptedInv(cfg, st, id);
      } else {
        StoppedInv(cfg, st, id);
        RecordFailInv(cfg, Stopped(st, id), id);
      }
    }
  }

  /** A step on the tables, the lease or the clock alone keeps the invariant. */
  lemma TablesInv(cfg: Scheduling, st: State, st': State)
    requires Inv(cfg, st) && SameSlots(st, st') && BackoffOK(st') && st'.now > 0
    requires st'.codingModel == st.codingModel && (st'.lastCodingAt != 0 || st'.lastCodingAt == st.lastCodingAt)
    requires st'.lastCodingAt <= st'.now
    requires SameFlight(st, st')
    ensures Inv(cfg, st')
  {
    SameSlotsCore(cfg, st, st');
    CodingKept(cfg, st, st');
    FlightKept(st, st');
  }

  lemma LaunchCoding(cfg: Scheduling, st: State, id: string, o: Oracle)
    requires Core(cfg, st) && CodingOK(cfg, st) && Known(cfg, id) && GPUFree(cfg, st, id)
    requires At(cfg, id).mode == Background && (CodingRunning(cfg, st) ==> Survives(cfg, id))
    ensures CodingOK(cfg, Launch(cfg, st, id, o))
  {
    var st' := Launch(cfg, st, id, o);
    LaunchShape(cfg, st, id, o);
    LaunchCore(cfg, st, id, o);
    forall x | Runs(st', x) && At(cfg, x).mode == Coding
      ensures st'.codingModel == x && forall b | b in st'.procs && b != x :: Survives(cfg, b)
    {
      assert Runs(st, x) && CodingRunning(cfg, st);
    }
    forall x | x in st'.procs && At(cfg, x).mode == Coding ensures x in st.procs && !st'.procs[x].sleeping {
      assert x != id;
    }
  }

  lemma AwaitAloneInv(cfg: Scheduling, st: State, id: string)
    requires Core(cfg, st) && CodingOK(cfg, st) && id in st.procs && !Asleep(st, id)
    ensures Inv(cfg, AwaitAlone(st, id))
  {
    SameSlotsCore(cfg, st, AwaitAlone(st, id));
    CodingKept(cfg, st, AwaitAlone(st, id));
  }

  lemma LaunchAloneInv(cfg: Scheduling, st: State, id: string, o: Oracle)
    requires Core(cfg, st) && CodingOK(cfg, st) && Known(cfg, id) && GPUFree(cfg, st, id)
    requires At(cfg, id).mode == Background && (CodingRunning(cfg, st) ==> Survives(cfg, id))
    ensures Inv(cfg, LaunchAlone(cfg, st, id, o))
  {
    LaunchCoding(cfg, st, id, o);
    LaunchShape(cfg, st, id, o);
    LaunchCore(cfg, st, id, o);
    AwaitAloneInv(cfg, Launch(cfg, st, id, o), id);
  }

  lemma PreemptInv(cfg: Scheduling, st: State, mode: Mode, target: string)
    requires Inv(cfg, st)
    ensures Inv(cfg, Preempt(st, mode, target))
  {
    TablesInv(cfg, st, Preempt(st, mode, target));
  }

  lemma EnsureCodingInv(cfg: Scheduling, st: State, id: string, o: Oracle)
    requires Good(cfg) && Inv(cfg, st) && Known(cfg, id) && id != "" && At(cfg, id).mode == Coding
    ensures Inv(cfg, EnsureCoding(cfg, st, id, o).0)
  {
    if Runs(st, id) || BackoffActive(st, id) {
    } else if st.flight != Idle {
      PreemptInv(cfg, st, Coding, id);
    } else {
      SwitchInv(cfg, st, [id], Coding, o);
    }
  }

  lemma AcquireAndLaunchInv(cfg: Scheduling, st: State, id: string, o: Oracle)
    requires Good(cfg) && Inv(cfg, st) && st.flight == Idle && Known(cfg, id) && At(cfg, id).mode == Background
    requires CodingRunning(cfg, st) ==> Survives(cfg, id)
    ensures Inv(cfg, AcquireAndLaunch(cfg, st, id, o).0)
  {
    if Acquire(cfg, st, id, o).Some? {
      var s1 := Acquire(cfg, st, id, o).value;
      AcquireInv(cfg, st, id, o);
      AcquireCore(cfg, st, id, o);
      assert CodingRunning(cfg, s1) ==> CodingRunning(cfg, st);
      LaunchAloneInv(cfg, s1, id, o);
    }
  }

  lemma EnsureOnDemandInv(cfg: Scheduling, st: State, id: string, o: Oracle)
    requires Good(cfg) && Inv(cfg, st) && Known(cfg, id) && At(cfg, id).mode == Background
    requires CodingRunning(cfg, st) ==> Survives(cfg, id)
    ensures Inv(cfg, EnsureOnDemand(cfg, st, id, o).0)
  {
    if Runs(st, id) || BackoffActive(st, id) {
    } else if st.flight != Idle {
      PreemptInv(cfg, st, Background, id);
    } else {
      AcquireAndLaunchInv(cfg, st, id, o);
    }
  }

  lemma GroupSwitchInv(cfg: Scheduling, st: State, o: Oracle)
    requires Good(cfg) && Inv(cfg, st) && IsGroup(cfg, o.group)
    ensures Inv(cfg, GroupSwitch(cfg, st, o))
  {
    if o.group != [] {
      SwitchInv(cfg, st, o.group, Background, o);
    }
  }

  lemma EnsureMemberInv(cfg: Scheduling, st: State, id: string, o: Oracle)
    requires Good(cfg) && Inv(cfg, st) && id in st.procs
    ensures Inv(cfg, EnsureMember(cfg, st, id, o).0)
  {
    if !Runs(st, id) && st.flight == Idle {
      RestartInv(cfg, st, id, o);
    }
  }

  lemma EnsureGroupInv(cfg: Scheduling, st: State, id: string, o: Oracle)
    requires Good(cfg) && Inv(cfg, st) && IsGroup(cfg, o.group)
    ensures Inv(cfg, EnsureGroup(cfg, st, id, o).0)
  {
    hide GroupSwitch, LeaseActive, Core, CodingOK, FlightOK;
    GroupSwitchInv(cfg, st, o);
  }

  lemma EnsureBackgroundInv(cfg: Scheduling, st: State, id: string, o: Oracle)
    requires Good(cfg) && Inv(cfg, st) && IsGroup(cfg, o.group)
    requires Known(cfg, id) && At(cfg, id).mode == Background
    requires CodingRunning(cfg, st) ==> Survives(cfg, id)
    ensures Inv(cfg, EnsureBackground(cfg, st, id, o).0)
  {
    if !InGroup(cfg, id) {
      EnsureOnDemandInv(cfg, st, id, o);
    } else if id in st.procs && (At(cfg, id).resident || st.codingModel == "") {
      EnsureMemberInv(cfg, st, id, o);
    } else {
      EnsureGroupInv(cfg, st, id, o);
    }
  }

  lemma TouchInv(cfg: Scheduling, st: State, id: string, mode: Mode)
    requires Inv(cfg, st)
    ensures Inv(cfg, TouchFor(st, id, mode))
  {
    TablesInv(cfg, st, TouchFor(st, id, mode));
  }

  lemma KnownMode(cfg: Scheduling, id: string)
    requires Good(cfg) && Known(cfg, id)
    ensures EntryAccepted(At(cfg, id)) && At(cfg, id).mode in {Coding, Background}
  {
  }

  lemma GuardedInv(cfg: Scheduling, st: State, id: string, o: Oracle)
    requires Good(cfg) && Inv(cfg, st) && IsGroup(cfg, o.group) && Known(cfg, id) && id != ""
    ensures Inv(cfg, Guarded(cfg, st, id, o).0)
  {
    KnownMode(cfg, id);
    if At(cfg, id).mode == Coding {
      EnsureCodingInv(cfg, st, id, o);
    } else if Survives(cfg, id) || !CodingRunning(cfg, st) {
      EnsureBackgroundInv(cfg, st, id, o);
    }
  }

  lemma RequestIsGuarded(cfg: Scheduling, st: State, id: string, o: Oracle)
    requires Known(cfg, id) && id != "" && id != PROXY_MODEL_ID
    ensures Request(cfg, st, id, o) == Guarded(cfg, TouchFor(st, id, At(cfg, id).mode), id, o)
  {
  }

  lemma RequestInv(cfg: Scheduling, st: State, id: string, o: Oracle)
    requires Good(cfg) && Inv(cfg, st) && IsGroup(cfg, o.group)
    ensures Inv(cfg, Request(cfg, st, id, o).0)
  {
    if Known(cfg, id) && id != "" && id != PROXY_MODEL_ID {
      RequestIsGuarded(cfg, st, id, o);
      TouchInv(cfg, st, id, At(cfg, id).mode);
      GuardedInv(cfg, TouchFor(st, id, At(cfg, id).mode), id, o);
    }
  }

  lemma ForgottenSteady(st: State, id: string)
    requires id in st.procs
    ensures Steady(st, Forgotten(st, id))
  {
  }

  lemma ForgottenInv(cfg: Scheduling, st: State, id: string)
    requires Inv(cfg, st) && id in st.procs && st.procs[id].cmd == 0
    ensures Inv(cfg, Forgotten(st, id))
  {
    assert SlotOK(st, st.procs[id]);
    SlotCore(cfg, st, Forgotten(st, id), id);
    ForgottenSteady(st, id);
    SteadyInv(cfg, st, Forgotten(st, id));
  }

  lemma VisitGoneInv(cfg: Scheduling, st: State, id: string, o: Oracle)
    requires Good(cfg) && Inv(cfg, st) && id in st.procs && st.procs[id].cmd == 0
    requires At(cfg, id).mode == Background ==> st.flight == Idle
    ensures Inv(cfg, VisitGone(cfg, st, id, o))
  {
    ForgottenInv(cfg, st, id);
    if At(cfg, id).mode == Background {
      RestartInv(cfg, Forgotten(st, id), id, o);
    }
  }

  lemma VisitInv(cfg: Scheduling, st: State, id: string, o: Oracle)
    requires Good(cfg) && Inv(cfg, st) && (VisitLocks(cfg, st, id, o) ==> st.flight == Idle)
    ensures Inv(cfg, Visit(cfg, st, id, o))
  {
    hide Core, CodingOK, FlightOK, MarkReady, VisitGone, IdleForSleep;
    hide Listens;
    if id in st.procs && !st.procs[id].sleeping {
      if st.procs[id].readyOK {
        if SleepsNow(cfg, st, id) {
          SuspendInv(cfg, st, id);
        }
      } else if At(cfg, id).readinessURL != "" {
        if Gone(cfg, st, id, o) {
          VisitGoneInv(cfg, st, id, o);
        } else {
          MarkReadyInv(cfg, st, id, o);
        }
      }
    }
  }

  lemma RecoverInv(cfg: Scheduling, st: State, o: Oracle)
    requires Good(cfg) && Inv(cfg, st) && DeadNeverReady(st) && IsGroup(cfg, o.group)
    ensures Inv(cfg, Recover(cfg, st, o))
  {
    if o.group == [] {
      var st' := st.(codingModel := "");
      SameSlotsCore(cfg, st, st');
      assert forall x :: Runs(st', x) ==> Runs(st, x);
    } else {
      GroupSwitchInv(cfg, st, o);
    }
  }

  lemma ExitedInv(cfg: Scheduling, st: State, p: nat)
    requires Inv(cfg, st)
    ensures Inv(cfg, st.(live := st.live - {p}))
  {
    var st' := st.(live := st.live - {p});
    FewerRun(cfg, st, st');
    forall x | x in st'.procs ensures SlotOK(st', st'.procs[x]) {
      assert SlotOK(st, st.procs[x]);
    }
    SteadyInv(cfg, st, st');
  }

  lemma StartInv(cfg: Scheduling, st: State, o: Oracle)
    requires Good(cfg) && Inv(cfg, st) && IsGroup(cfg, o.group)
    ensures Inv(cfg, GroupSwitch(cfg, st, o).(started := true))
  {
    GroupSwitchInv(cfg, st, o);
    TablesInv(cfg, GroupSwitch(cfg, st, o), GroupSwitch(cfg, st, o).(started := true));
  }

  lemma FinishInv(cfg: Scheduling, st: State, oks: seq<string>, o: Oracle)
    requires Inv(cfg, st) && st.flight.Switching? && forall id :: id in oks ==> id in st.flight.wait
    ensures Inv(cfg, MarkAll(cfg, st, oks, o).(flight := Idle))
  {
    MarkAllInv(cfg, st, oks, o);
    TablesInv(cfg, MarkAll(cfg, st, oks, o), MarkAll(cfg, st, oks, o).(flight := Idle));
  }

  lemma TableStepInv(cfg: Scheduling, st: State, ev: Event)
    requires Inv(cfg, st) && (ev.Touched? || ev.Entered? || ev.Left? || ev.Tick?)
    ensures Inv(cfg, Apply(cfg, st, ev))
  {
    TablesInv(cfg, st, Apply(cfg, st, ev));
  }

  /** Every enabled step keeps the invariant. */
  lemma StepInv(cfg: Scheduling, st: State, ev: Event)
    requires Good(cfg) && Inv(cfg, st) && Enabled(cfg, st, ev)
    ensures Inv(cfg, Apply(cfg, st, ev))
  {
    hide Request, Visit, Reap, Recover, GroupSwitch, MarkAll, MarkReady, Core, CodingOK;
    match ev
    case Start(o) => StartInv(cfg, st, o);
    case Ask(id, o) => RequestInv(cfg, st, id, o);
    case Ready(id, o) => MarkReadyInv(cfg, st, id, o);
    case Finish(oks, o) => FinishInv(cfg, st, oks, o);
    case Reaped(id, proc, o) => ReapInv(cfg, st, id, proc, o);
    case Visited(id, o) => VisitInv(cfg, st, id, o);
    case Recovered(o) => RecoverInv(cfg, st, o);
    case LeaseTick(o) => GroupSwitchInv(cfg, st, o);
    case Exited(p) => ExitedInv(cfg, st, p);
    case _ => TableStepInv(cfg, st, ev);
  }

  /** Every reachable state satisfies the invariant. */
  lemma {:induction false} RunInv(cfg: Scheduling, st: State, evs: seq<Event>)
    requires Good(cfg) && Inv(cfg, st) && IsRun(cfg, st, evs)
    ensures Inv(cfg, Exec(cfg, st, evs))
    decreases |evs|
  {
    if evs != [] {
      StepInv(cfg, st, evs[0]);
      RunInv(cfg, Apply(cfg, st, evs[0]), evs[1..]);
    }
  }
}
