/** What a request hands back, and whom it wakes. */
module Requests {
  import opened Text
  import opened Config
  import opened Machine
  import opened Invariants
  import opened Steps
  import opened Moves
  import opened Safety
  import opened Theorems

  /** The reply is id's own channel, and it is open. */
  ghost predicate OpenChannel(r: (State, Reply), id: string) {
    r.1.Granted? ==> id in r.0.procs && r.0.procs[id].ch == r.1.ch && r.1.ch !in r.0.closes
  }

  lemma AfterSwitchOpen(st: State, id: string)
    requires Lifecycle(st) && !ClosedSlot(st, id)
    ensures OpenChannel(AfterSwitch(st, id), id)
  {
    if id in st.procs {
      assert SlotOK(st, st.procs[id]);
    }
  }

  lemma GroupSwitchOpen(cfg: Scheduling, st: State, id: string, o: Oracle)
    requires Good(cfg) && Inv(cfg, st) && IsGroup(cfg, o.group) && !ClosedSlot(st, id)
    ensures OpenChannel(AfterSwitch(GroupSwitch(cfg, st, o), id), id)
  {
    GroupSwitchInv(cfg, st, o);
    if o.group != [] && ClosedSlot(SwitchTo(cfg, st, o.group, Background, o), id) {
      TargetsClosed(cfg, StopAll(cfg, st), o.group, o, id);
    }
    AfterSwitchOpen(GroupSwitch(cfg, st, o), id);
  }

  lemma CodingOpen(cfg: Scheduling, st: State, id: string, o: Oracle)
    requires Good(cfg) && Inv(cfg, st) && Known(cfg, id) && id != "" && At(cfg, id).mode == Coding
    requires !Runs(st, id) && !ClosedSlot(st, id)
    ensures OpenChannel(EnsureCoding(cfg, st, id, o), id)
  {
    if st.flight == Idle {
      SwitchInv(cfg, st, [id], Coding, o);
      if ClosedSlot(SwitchTo(cfg, st, [id], Coding, o), id) {
        TargetsClosed(cfg, StopAll(cfg, st), [id], o, id);
      }
      AfterSwitchOpen(SwitchTo(cfg, st, [id], Coding, o), id);
    }
  }

  lemma OnDemandOpen(cfg: Scheduling, st: State, id: string, o: Oracle)
    requires Good(cfg) && Inv(cfg, st) && st.flight == Idle && Known(cfg, id) && At(cfg, id).mode == Background
    requires CodingRunning(cfg, st) ==> Survives(cfg, id)
    ensures OpenChannel(AcquireAndLaunch(cfg, st, id, o), id)
  {
    AcquireAndLaunchInv(cfg, st, id, o);
    if Acquire(cfg, st, id, o).Some? {
      LaunchShape(cfg, Acquire(cfg, st, id, o).value, id, o);
      AfterSwitchOpen(AcquireAndLaunch(cfg, st, id, o).0, id);
    }
  }

  lemma RelaunchChannel(cfg: Scheduling, st: State, id: string, o: Oracle)
    requires id in st.procs
    ensures var st' := Relaunch(cfg, st, id, o);
      id in st'.procs && st'.procs[id].ch == st.procs[id].ch && st'.closes == st.closes
  {
    FreePortShape(cfg, st, id, o);
  }

  /** A restart keeps id's channel as it is. */
  lemma RestartChannel(cfg: Scheduling, st: State, id: string, o: Oracle)
    requires id in st.procs
    ensures var st' := Restart(cfg, st, id, o);
      id in st'.procs && st'.procs[id].ch == st.procs[id].ch && st'.closes == st.closes
  {
    if NeedRestart(cfg, st, id) && Acquire(cfg, st, id, o).Some? {
      RelaunchChannel(cfg, Acquire(cfg, st, id, o).value, id, o);
    }
  }

  lemma MemberOpen(cfg: Scheduling, st: State, id: string, o: Oracle)
    requires Lifecycle(st) && id in st.procs && !ClosedSlot(st, id)
    ensures OpenChannel(EnsureMember(cfg, st, id, o), id)
  {
    assert SlotOK(st, st.procs[id]);
    RestartChannel(cfg, st, id, o);
  }

  lemma BackgroundOpen(cfg: Scheduling, st: State, id: string, o: Oracle)
    requires Good(cfg) && Inv(cfg, st) && IsGroup(cfg, o.group) && Known(cfg, id) && At(cfg, id).mode == Background
    requires CodingRunning(cfg, st) ==> Survives(cfg, id)
    requires !Runs(st, id) && !ClosedSlot(st, id)
    ensures OpenChannel(EnsureBackground(cfg, st, id, o), id)
  {
    hide CodingOK, FlightOK, GroupSwitch, AcquireAndLaunch;
    if !InGroup(cfg, id) {
      if st.flight == Idle {
        OnDemandOpen(cfg, st, id, o);
      }
    } else if id in st.procs && (At(cfg, id).resident || st.codingModel == "") {
      MemberOpen(cfg, st, id, o);
    } else {
      GroupSwitchOpen(cfg, st, id, o);
    }
  }

  lemma GuardedOpen(cfg: Scheduling, st: State, id: string, o: Oracle)
    requires Good(cfg) && Inv(cfg, st) && IsGroup(cfg, o.group) && Known(cfg, id) && id != ""
    requires !Runs(st, id) && !ClosedSlot(st, id)
    ensures OpenChannel(Guarded(cfg, st, id, o), id)
  {
    KnownMode(cfg, id);
    if At(cfg, id).mode == Coding {
      CodingOpen(cfg, st, id, o);
    } else if Survives(cfg, id) || !CodingRunning(cfg, st) {
      BackgroundOpen(cfg, st, id, o);
    }
  }

  lemma TouchKeeps(st: State, id: string, mode: Mode)
    ensures SameSlots(st, TouchFor(st, id, mode))
    ensures Runs(TouchFor(st, id, mode), id) <==> Runs(st, id)
    ensures ClosedSlot(TouchFor(st, id, mode), id) <==> ClosedSlot(st, id)
  {
  }

  lemma RequestOpen(cfg: Scheduling, st: State, id: string, o: Oracle)
    requires Good(cfg) && Inv(cfg, st) && IsGroup(cfg, o.group)
    requires !Runs(st, id) && !ClosedSlot(st, id)
    ensures OpenChannel(Request(cfg, st, id, o), id)
  {
    if Known(cfg, id) && id != "" && id != PROXY_MODEL_ID {
      var s1 := TouchFor(st, id, At(cfg, id).mode);
      TouchInv(cfg, st, id, At(cfg, id).mode);
      TouchKeeps(st, id, At(cfg, id).mode);
      GuardedOpen(cfg, s1, id, o);
      RequestIsGuarded(cfg, st, id, o);
    }
  }

  /** No stale "ready": a request for a model that is asleep, or has no slot, is handed
      that model's own channel, still open, or none at all. */
  lemma NoStaleReady(cfg: Scheduling, evs: seq<Event>, id: string, o: Oracle)
    requires Good(cfg) && Legal(cfg, evs) && IsGroup(cfg, o.group)
    requires Asleep(Reached(cfg, evs), id) || id !in Reached(cfg, evs).procs
    ensures OpenChannel(Request(cfg, Reached(cfg, evs), id, o), id)
  {
    ReachedInv(cfg, evs);
    RequestOpen(cfg, Reached(cfg, evs), id, o);
  }

  lemma MarkCloses(cfg: Scheduling, st: State, id: string, o: Oracle, ch: nat)
    requires Lifecycle(st)
    ensures var st' := MarkReady(cfg, st, id, o);
      && st'.closes[ch] <= 1
      && (ch in st'.closes <==> ch in st.closes || (id in st.procs && st.procs[id].ch == ch))
      && (id in st.procs ==> id in st'.procs && st'.procs[id].readyOK)
  {
    if id in st.procs {
      assert SlotOK(st, st.procs[id]);
    }
  }

  /** The waiter: the channel a request was handed while the model was down is closed after
      the next marking of the model as ready, however long a run lies between, if and only
      if it was closed in the meantime or the model's slot still carries it.  A switch or
      an eviction that replaces the slot's channel strands the waiter. */
  lemma WaiterReleasedExactlyWhen(
      cfg: Scheduling, evs: seq<Event>, id: string, o: Oracle, more: seq<Event>, o': Oracle)
    requires Good(cfg) && Legal(cfg, evs) && IsGroup(cfg, o.group)
    requires Asleep(Reached(cfg, evs), id) || id !in Reached(cfg, evs).procs
    requires var r := Request(cfg, Reached(cfg, evs), id, o); r.1.Granted? && IsRun(cfg, r.0, more)
    ensures var r := Request(cfg, Reached(cfg, evs), id, o);
      var st := Exec(cfg, r.0, more);
      && r.1.ch !in r.0.closes
      && (r.1.ch in MarkReady(cfg, st, id, o').closes <==>
            r.1.ch in st.closes || (id in st.procs && st.procs[id].ch == r.1.ch))
  {
    hide Request, Reached, Legal, MarkReady;
    var r := Request(cfg, Reached(cfg, evs), id, o);
    NoStaleReady(cfg, evs, id, o);
    ReachedInv(cfg, evs);
    RequestInv(cfg, Reached(cfg, evs), id, o);
    RunInv(cfg, r.0, more);
    MarkCloses(cfg, Exec(cfg, r.0, more), id, o', r.1.ch);
  }

  /** Marking a slot ready keeps the channels sound exactly when the slot is not asleep:
      a probe that succeeded just before an eviction must not be acted on after it. */
  lemma ProbeRace(cfg: Scheduling, st: State, id: string, o: Oracle)
    requires Core(cfg, st) && id in st.procs
    ensures Lifecycle(MarkReady(cfg, st, id, o)) <==> !Asleep(st, id)
  {
    assert SlotOK(st, st.procs[id]);
    if Asleep(st, id) {
      assert !SlotOK(MarkReady(cfg, st, id, o), MarkReady(cfg, st, id, o).procs[id]);
    } else {
      MarkReadyCore(cfg, st, id, o);
    }
  }

  lemma RestartWakes(cfg: Scheduling, st: State, id: string, o: Oracle)
    requires NeedRestart(cfg, st, id) && At(cfg, id).gpu == "" && id in o.starts && st.nextProc > 0
    ensures Runs(Restart(cfg, st, id, o), id)
  {
    FreePortShape(cfg, st, id, o);
  }

  // Startup-set members that declare no GPU, while a coding model is registered.

  /** The group switch hands out the member's channel unless the member sleeps through it. */
  lemma GroupServes(cfg: Scheduling, st: State, id: string, o: Oracle)
    requires InGroup(cfg, id) && Survives(cfg, id) && IsGroup(cfg, o.group)
    ensures var r := AfterSwitch(GroupSwitch(cfg, st, o), id);
      && (r.1.Granted? <==> !Asleep(st, id)) && (r.1 == Never <==> Asleep(st, id))
      && r.0.codingModel == "" && (Asleep(st, id) ==> Asleep(r.0, id))
      && (forall c | c in r.0.procs && c !in o.group :: Survives(cfg, c))
  {
    var s1 := Targets(cfg, StopAll(cfg, st), o.group, o);
    SwitchShape(cfg, st, o.group, Background, o);
    assert id in o.group && Register(s1, o.group, Background).procs == s1.procs;
  }

  /** A coding model runs, and less than the lease has passed since the last coding traffic. */
  ghost predicate OnLease(cfg: Scheduling, st: State) {
    && (exists c :: Runs(st, c) && At(cfg, c).mode == Coding)
    && cfg.lease > 0 && st.now - st.lastCodingAt < cfg.lease
  }

  /** That is the scheduler's test. */
  lemma LeaseIs(cfg: Scheduling, st: State)
    requires Inv(cfg, st)
    ensures LeaseActive(cfg, st) <==> OnLease(cfg, st)
  {
    if c :| Runs(st, c) && At(cfg, c).mode == Coding {
      assert c in st.procs && st.codingModel == c && (c != "" ==> st.lastCodingAt != 0);
    }
  }

  lemma TouchLease(cfg: Scheduling, st: State, id: string)
    ensures var s1 := TouchFor(st, id, Background);
      && (LeaseActive(cfg, s1) <==> LeaseActive(cfg, st)) && (CodingRunning(cfg, s1) <==> CodingRunning(cfg, st))
      && (NeedRestart(cfg, s1, id) <==> NeedRestart(cfg, st, id)) && (BackoffActive(s1, id) <==> BackoffActive(st, id))
  {
  }

  /** What a request for a GPU-less startup member comes down to. */
  lemma CpuRequest(cfg: Scheduling, st: State, id: string, o: Oracle)
    requires Good(cfg) && InGroup(cfg, id) && id != "" && id != PROXY_MODEL_ID
    requires !cfg.models[id].resident && cfg.models[id].gpu == ""
    ensures var s1 := TouchFor(st, id, Background);
      Request(cfg, st, id, o) ==
        if id in st.procs && st.codingModel == "" then EnsureMember(cfg, s1, id, o) else EnsureGroup(cfg, s1, id, o)
    ensures Survives(cfg, id)
  {
    hide EnsureMember, EnsureGroup;
    AtKey(cfg, id);
    RequestIsGuarded(cfg, st, id, o);
  }

  /** Is a startup member that declares no GPU served as usual?  With no coding model
      registered, always, once no switch is under way.  With one registered, whether the
      member runs, is down or sleeps: never while the lease is active, when the caller gets
      a channel nobody closes, though the member may be ready; after it only if the member
      is awake and no switch is under way, and then at the price of stopping the coding
      model. */
  lemma CpuMemberServedExactlyWhen(cfg: Scheduling, st: State, id: string, o: Oracle)
    requires Good(cfg) && Inv(cfg, st) && IsGroup(cfg, o.group)
    requires InGroup(cfg, id) && id != "" && id != PROXY_MODEL_ID
    requires !cfg.models[id].resident && cfg.models[id].gpu == ""
    ensures var r := Request(cfg, st, id, o);
      && (r.1.Granted? <==>
            if st.codingModel == "" then Runs(st, id) || st.flight == Idle
            else !OnLease(cfg, st) && st.flight == Idle && !Asleep(st, id))
      && (r.1 == Never <==>
            st.codingModel != "" && (OnLease(cfg, st) || (st.flight == Idle && Asleep(st, id))))
      && (st.codingModel != "" && r.1.Granted? ==> r.0.codingModel == "" && st.codingModel !in r.0.procs)
  {
    hide Request, LeaseActive, OnLease, GroupSwitch, Restart, Core, FlightOK;
    LeaseIs(cfg, st);
    var s1 := TouchFor(st, id, Background);
    AtKey(cfg, id);
    CpuRequest(cfg, st, id, o);
    TouchLease(cfg, st, id);
    if !(id in st.procs && st.codingModel == "") {
      GroupServes(cfg, s1, id, o);
      if st.codingModel != "" {
        CodingOutside(cfg, st, o);
      }
    }
  }

  lemma CodingOutside(cfg: Scheduling, st: State, o: Oracle)
    requires Good(cfg) && CodingOK(cfg, st) && IsGroup(cfg, o.group) && st.codingModel != ""
    ensures st.codingModel !in o.group && !Survives(cfg, st.codingModel)
  {
    if InGroup(cfg, st.codingModel) {
      AtKey(cfg, st.codingModel);
    }
  }

  /** A target that is down and not asleep runs after the launches, if its command starts. */
  lemma {:induction false} TargetsRun(cfg: Scheduling, st: State, ids: seq<string>, o: Oracle, id: string)
    requires Core(cfg, st) && Launchable(cfg, st, ids) && id in o.starts && At(cfg, id).command != ""
    requires (id in ids && !Runs(st, id) && !Asleep(st, id)) || (id in st.procs && st.procs[id].cmd != 0 && id !in ids)
    requires forall i, j :: 0 <= i < j < |ids| ==> ids[i] != ids[j]
    ensures var st' := Targets(cfg, st, ids, o); id in st'.procs && st'.procs[id].cmd != 0
    decreases |ids|
  {
    hide OneOwner, Lifecycle, BackoffOK, KeysOK, Beside, Listens;
    if ids != [] {
      var s1 := Target(cfg, st, ids[0], o);
      assert ids[0] in ids && Known(cfg, ids[0]) && Beside(cfg, st, ids[0]);
      BesideIsFree(cfg, st, ids[0]);
      TargetCore(cfg, st, ids[0], o);
      TargetShape(cfg, st, ids[0], o);
      LaunchableRest(cfg, st, s1, ids);
      assert ids == [ids[0]] + ids[1..];
      if ids[0] == id {
        LaunchCommand(cfg, st, id, o);
        assert id !in ids[1..];
      }
      TargetsRun(cfg, s1, ids[1..], o, id);
    }
  }

  lemma LaunchCommand(cfg: Scheduling, st: State, id: string, o: Oracle)
    requires st.nextProc > 0 && id in o.starts && At(cfg, id).command != ""
    ensures id in Launch(cfg, st, id, o).procs && Launch(cfg, st, id, o).procs[id].cmd != 0
  {
    FreePortShape(cfg, st, id, o);
  }

  lemma GroupRuns(cfg: Scheduling, st: State, id: string, o: Oracle)
    requires Good(cfg) && Inv(cfg, st) && InGroup(cfg, id) && IsGroup(cfg, o.group)
    requires !Runs(st, id) && !Asleep(st, id) && id in o.starts && At(cfg, id).command != ""
    ensures Runs(GroupSwitch(cfg, st, o), id)
  {
    hide Targets, Launchable;
    var s0 := StopAll(cfg, st);
    StopAllCore(cfg, st);
    StopAllLaunchable(cfg, st, o.group, Background);
    assert !Runs(s0, id) && !Asleep(s0, id);
    TargetsRun(cfg, s0, o.group, o, id);
  }

  /** Waking such a member, asleep or merely down: with no coding model registered its
      request starts it unless it has a slot that is backing off; with one registered, only
      if the lease is over and it is down and not asleep. */
  lemma CpuMemberStartsExactlyWhen(cfg: Scheduling, st: State, id: string, o: Oracle)
    requires Good(cfg) && Inv(cfg, st) && IsGroup(cfg, o.group) && st.flight == Idle
    requires InGroup(cfg, id) && id != "" && id != PROXY_MODEL_ID
    requires !cfg.models[id].resident && cfg.models[id].gpu == "" && cfg.models[id].command != ""
    requires !Runs(st, id) && id in o.starts
    ensures Runs(Request(cfg, st, id, o).0, id) <==>
      if st.codingModel == "" then id !in st.procs || !BackoffActive(st, id)
      else !OnLease(cfg, st) && !Asleep(st, id)
  {
    hide Request, LeaseActive, OnLease, GroupSwitch, Restart, CodingOK, FlightOK;
    LeaseIs(cfg, st);
    var s1 := TouchFor(st, id, Background);
    AtKey(cfg, id);
    CpuRequest(cfg, st, id, o);
    TouchLease(cfg, st, id);
    TouchInv(cfg, st, id, Background);
    if id in st.procs && st.codingModel == "" {
      CpuRestart(cfg, s1, id, o);
    } else {
      GroupServes(cfg, s1, id, o);
      if Asleep(st, id) {
        GroupLeavesAsleep(cfg, s1, id, o);
      } else {
        GroupRuns(cfg, s1, id, o);
      }
    }
  }

  lemma CpuRestart(cfg: Scheduling, st: State, id: string, o: Oracle)
    requires Core(cfg, st) && id in st.procs && !Runs(st, id) && At(cfg, id).mode == Background
    requires At(cfg, id).gpu == "" && At(cfg, id).command != "" && id in o.starts
    ensures Runs(Restart(cfg, st, id, o), id) <==> !BackoffActive(st, id)
  {
    if NeedRestart(cfg, st, id) {
      RestartWakes(cfg, st, id, o);
    }
  }

  lemma GroupLeavesAsleep(cfg: Scheduling, st: State, id: string, o: Oracle)
    requires Good(cfg) && Inv(cfg, st) && IsGroup(cfg, o.group) && Asleep(st, id) && Survives(cfg, id) && InGroup(cfg, id)
    ensures !Runs(GroupSwitch(cfg, st, o), id)
  {
    assert SlotOK(st, st.procs[id]);
    SwitchShape(cfg, st, o.group, Background, o);
  }
}
