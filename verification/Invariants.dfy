/** What every step of the scheduler keeps. */
module Invariants {
  import opened Text
  import opened Config
  import opened Machine

  /** An accepted configuration whose ids carry no edge white space. */
  ghost predicate Good(cfg: Scheduling) {
    KeysTrimmed(cfg) && SchedulingAccepted(cfg)
  }

  /** Slots belong to configured models, under their own ids or under ids with edge white
      space, and expected lists exactly the slots. */
  ghost predicate KeysOK(cfg: Scheduling, st: State) {
    && (forall id :: id in st.procs ==> Known(cfg, id))
    && st.expected == st.procs.Keys
  }

  predicate SameCard(cfg: Scheduling, a: string, b: string) {
    At(cfg, a).gpu != "" && At(cfg, a).gpu == At(cfg, b).gpu
  }

  /** m is a resident member of the startup set and v another spelling of its id. */
  predicate Shadows(cfg: Scheduling, m: string, v: string) {
    InGroup(cfg, m) && At(cfg, m).resident && v != m && TrimSpace(v) == m
  }

  /** Both spellings name one entry. */
  lemma ShadowEntry(cfg: Scheduling, m: string, v: string)
    requires Shadows(cfg, m, v)
    ensures At(cfg, v) == At(cfg, m)
  {
    TrimSpaceTrims(v);
    TrimSpaceTrims(m);
  }

  /** At most one running slot per GPU, but for a resident startup member that runs under
      its own id and under another spelling of it. */
  ghost predicate OneOwner(cfg: Scheduling, st: State) {
    forall a, b | Runs(st, a) && Runs(st, b) && a != b && SameCard(cfg, a, b) :: Shadows(cfg, a, b) || Shadows(cfg, b, a)
  }

  /** Channels: never shared, never closed twice, and readyChClosed mirrors the channel;
      ready implies closed; asleep implies stopped, not ready, and an open channel. */
  ghost predicate Lifecycle(st: State) {
    && (forall c :: st.closes[c] <= 1)
    && (forall c :: c in st.closes ==> c < st.nextCh)
    && (forall a, b | a in st.procs && b in st.procs && a != b :: st.procs[a].ch != st.procs[b].ch)
    && (forall id :: id in st.procs ==> SlotOK(st, st.procs[id]))
  }

  ghost predicate SlotOK(st: State, sl: Slot) {
    && sl.ch < st.nextCh
    && sl.chClosed == (sl.ch in st.closes)
    && (sl.readyOK ==> sl.chClosed)
    && (sl.sleeping ==> sl.cmd == 0 && sl.server == 0 && !sl.readyOK && !sl.chClosed)
  }

  /** Launch numbers: fresh ones are unused, and no two slots stand for one launch. */
  ghost predicate LaunchesOK(st: State) {
    && st.nextProc > 0
    && (forall p :: p in st.live ==> 0 < p < st.nextProc)
    && (forall id :: id in st.procs ==> st.procs[id].cmd < st.nextProc && st.procs[id].server < st.nextProc)
    && (forall a, b | a in st.procs && b in st.procs && a != b && st.procs[a].Proc() != 0 ::
          st.procs[a].Proc() != st.procs[b].Proc())
  }

  /** A retry time exists only after at least two failures in a row. */
  ghost predicate BackoffOK(st: State) {
    forall id :: id in st.nextRestartAt ==> id in st.failCount && st.failCount[id] >= 2
  }

  ghost predicate Core(cfg: Scheduling, st: State) {
    && KeysOK(cfg, st) && OneOwner(cfg, st) && Lifecycle(st) && LaunchesOK(st) && BackoffOK(st) && st.now > 0
  }

  /** Coding is exclusive: a running coding process is the registered one and everything
      beside it is resident or declares no GPU; coding slots are never suspended. */
  ghost predicate CodingOK(cfg: Scheduling, st: State) {
    && (forall a, b | a in st.procs && b in st.procs && At(cfg, a).mode == Coding && At(cfg, b).mode == Coding :: a == b)
    && (forall id | id in st.procs && At(cfg, id).mode == Coding :: id != "" && !st.procs[id].sleeping)
    && (forall id | Runs(st, id) && At(cfg, id).mode == Coding ::
          st.codingModel == id && forall b | b in st.procs && b != id :: Survives(cfg, b))
    && (st.codingModel != "" ==>
          st.codingModel in st.procs && At(cfg, st.codingModel).mode == Coding && st.lastCodingAt != 0)
    && st.lastCodingAt <= st.now
  }

  /** While a switch waits, it is a coding or a background one and its targets have slots;
      those it does not wait for sleep. */
  ghost predicate FlightOK(st: State) {
    st.flight.Switching? ==>
      && st.flight.mode in {Coding, Background}
      && st.flight.wait <= st.flight.ids <= st.procs.Keys
      && (forall id :: id in st.flight.wait ==> !st.procs[id].sleeping)
      && (forall id :: id in st.flight.ids - st.flight.wait ==> st.procs[id].sleeping)
  }

  ghost predicate Inv(cfg: Scheduling, st: State) {
    Core(cfg, st) && CodingOK(cfg, st) && FlightOK(st)
  }

  lemma InitInv(cfg: Scheduling)
    ensures Inv(cfg, INIT)
  {
  }

  predicate Asleep(st: State, id: string) {
    id in st.procs && st.procs[id].sleeping
  }

  predicate ClosedSlot(st: State, id: string) {
    id in st.procs && st.procs[id].chClosed
  }

  /** No slot comes, goes, falls asleep or wakes, except that id may do the latter two;
      the registered coding model, the lease and the switch stay. */
  ghost predicate SteadyBut(st: State, st': State, id: string) {
    && st'.procs.Keys == st.procs.Keys
    && st'.codingModel == st.codingModel && st'.lastCodingAt == st.lastCodingAt && st'.flight == st.flight && st'.now == st.now
    && forall x :: x != id ==> (Asleep(st', x) <==> Asleep(st, x))
  }

  ghost predicate Steady(st: State, st': State) {
    && st'.procs.Keys == st.procs.Keys
    && st'.codingModel == st.codingModel && st'.lastCodingAt == st.lastCodingAt && st'.flight == st.flight && st'.now == st.now
    && forall x :: Asleep(st', x) <==> Asleep(st, x)
  }

  // How a step may change one slot, and what that keeps.

  /** The channel of a slot stays as it is, is closed for the first time, or is replaced
      by a fresh open one. */
  ghost predicate ChannelStep(st: State, st': State, sl: Slot, sl': Slot) {
    || (sl'.ch == sl.ch && sl'.chClosed == sl.chClosed && st'.closes == st.closes && st'.nextCh == st.nextCh)
    || (sl'.ch == sl.ch && !sl.chClosed && sl'.chClosed && st'.closes == st.closes + multiset{sl.ch} && st'.nextCh == st.nextCh)
    || (sl'.ch == st.nextCh && !sl'.chClosed && st'.closes == st.closes && st'.nextCh == st.nextCh + 1)
  }

  ghost predicate FlagsOK(sl: Slot) {
    && (sl.readyOK ==> sl.chClosed)
    && (sl.sleeping ==> sl.cmd == 0 && sl.server == 0 && !sl.readyOK && !sl.chClosed)
  }

  lemma SlotLifecycle(st: State, st': State, id: string)
    requires Lifecycle(st) && id in st.procs && id in st'.procs
    requires st'.procs == st.procs[id := st'.procs[id]]
    requires ChannelStep(st, st', st.procs[id], st'.procs[id]) && FlagsOK(st'.procs[id])
    ensures Lifecycle(st')
  {
    var sl, sl' := st.procs[id], st'.procs[id];
    assert SlotOK(st, sl);
    forall x | x in st'.procs && x != id ensures SlotOK(st', st'.procs[x]) {
      assert SlotOK(st, st.procs[x]);
    }
  }

  lemma SlotLaunches(st: State, st': State, id: string)
    requires LaunchesOK(st) && id in st.procs && id in st'.procs
    requires st'.procs == st.procs[id := st'.procs[id]]
    requires st'.live <= st.live && st'.nextProc == st.nextProc
    requires st'.procs[id].Proc() in {0, st.procs[id].Proc()}
    requires st'.procs[id].cmd < st.nextProc && st'.procs[id].server < st.nextProc
    ensures LaunchesOK(st')
  {
  }

  lemma FewerRun(cfg: Scheduling, st: State, st': State)
    requires OneOwner(cfg, st)
    requires forall id :: Runs(st', id) ==> Runs(st, id)
    ensures OneOwner(cfg, st')
  {
  }

  /** A step on one slot that starts nothing keeps Core. */
  lemma SlotCore(cfg: Scheduling, st: State, st': State, id: string)
    requires Core(cfg, st) && id in st.procs && id in st'.procs
    requires st'.procs == st.procs[id := st'.procs[id]] && st'.expected == st.expected
    requires ChannelStep(st, st', st.procs[id], st'.procs[id]) && FlagsOK(st'.procs[id])
    requires st'.live <= st.live && st'.nextProc == st.nextProc
    requires st'.procs[id].Proc() in {0, st.procs[id].Proc()}
    requires st'.procs[id].cmd < st.nextProc && st'.procs[id].server < st.nextProc
    requires st'.procs[id].Running(st.live) ==> st.procs[id].Running(st.live)
    requires BackoffOK(st') && st'.now == st.now
    ensures Core(cfg, st')
    ensures forall x :: Runs(st', x) ==> Runs(st, x)
  {
    SlotLifecycle(st, st', id);
    SlotLaunches(st, st', id);
    FewerRun(cfg, st, st');
  }

  // The primitives keep Core.

  lemma MarkReadyCore(cfg: Scheduling, st: State, id: string, o: Oracle)
    requires Core(cfg, st)
    requires id in st.procs ==> !st.procs[id].sleeping
    ensures Core(cfg, MarkReady(cfg, st, id, o))
    ensures forall x :: Runs(MarkReady(cfg, st, id, o), x) ==> Runs(st, x)
  {
    if id in st.procs && !st.procs[id].readyOK {
      assert SlotOK(st, st.procs[id]);
      SlotCore(cfg, st, MarkReady(cfg, st, id, o), id);
    }
  }

  lemma MarkReadySteady(cfg: Scheduling, st: State, id: string, o: Oracle)
    ensures Steady(st, MarkReady(cfg, st, id, o))
  {
  }

  /** The halves of suspendSlot make the whole, when nothing comes between them. */
  lemma HalvesSuspend(st: State, id: string)
    requires id in st.procs
    ensures Stow(Drowse(st, id), id) == Suspend(st, id)
    ensures !st.procs[id].readyOK && st.procs[id].sleeping ==> Stow(st, id) == Suspend(st, id)
  {
    assert Drowse(st, id).procs[id := Slot(0, 0, false, st.nextCh, false, true)] == Suspend(st, id).procs;
  }

  lemma SuspendCore(cfg: Scheduling, st: State, id: string)
    requires Core(cfg, st) && id in st.procs
    ensures Core(cfg, Suspend(st, id))
    ensures forall x :: Runs(Suspend(st, id), x) ==> Runs(st, x)
    ensures SteadyBut(st, Suspend(st, id), id) && Asleep(Suspend(st, id), id)
  {
    SlotCore(cfg, st, Suspend(st, id), id);
  }

  /** st and st' agree on the slots, their processes and their channels. */
  ghost predicate SameSlots(st: State, st': State) {
    && st'.procs == st.procs && st'.expected == st.expected
    && st'.live == st.live && st'.nextProc == st.nextProc
    && st'.nextCh == st.nextCh && st'.closes == st.closes
  }

  lemma SameSlotsCore(cfg: Scheduling, st: State, st': State)
    requires Core(cfg, st) && SameSlots(st, st') && BackoffOK(st') && st'.now > 0
    ensures Core(cfg, st')
    ensures forall x :: Runs(st', x) ==> Runs(st, x)
  {
    FewerRun(cfg, st, st');
    forall x | x in st'.procs ensures SlotOK(st', st'.procs[x]) {
      assert SlotOK(st, st.procs[x]);
    }
  }

  lemma RecordFailShape(st: State, id: string)
    ensures SameSlots(st, RecordFail(st, id)) && RecordFail(st, id).now == st.now
    ensures Steady(st, RecordFail(st, id))
  {
  }

  lemma RecordFailBackoff(st: State, id: string)
    requires BackoffOK(st)
    ensures BackoffOK(RecordFail(st, id))
  {
  }

  lemma RecordFailCore(cfg: Scheduling, st: State, id: string)
    requires Core(cfg, st)
    ensures Core(cfg, RecordFail(st, id))
    ensures forall x :: Runs(RecordFail(st, id), x) ==> Runs(st, x)
  {
    RecordFailShape(st, id);
    RecordFailBackoff(st, id);
    SameSlotsCore(cfg, st, RecordFail(st, id));
  }

  lemma StoppedCore(cfg: Scheduling, st: State, id: string)
    requires Core(cfg, st) && id in st.procs && st.procs[id].cmd != 0
    ensures Core(cfg, Stopped(st, id))
    ensures forall x :: Runs(Stopped(st, id), x) ==> Runs(st, x)
    ensures Steady(st, Stopped(st, id))
  {
    assert SlotOK(st, st.procs[id]);
    SlotCore(cfg, st, Stopped(st, id), id);
  }

  lemma AdoptedCore(cfg: Scheduling, st: State, id: string)
    requires Core(cfg, st) && id in st.procs && st.procs[id].cmd != 0
    ensures Core(cfg, Adopted(st, id))
    ensures forall x :: Runs(Adopted(st, id), x) ==> Runs(st, x)
    ensures Steady(st, Adopted(st, id))
  {
    assert SlotOK(st, st.procs[id]);
    SlotCore(cfg, st, Adopted(st, id), id);
  }

  lemma FreePortCore(cfg: Scheduling, st: State, id: string, o: Oracle)
    requires Core(cfg, st)
    ensures Core(cfg, FreePort(cfg, st, id, o))
    ensures forall x :: Runs(FreePort(cfg, st, id, o), x) ==> Runs(st, x)
    ensures Steady(st, FreePort(cfg, st, id, o)) && FreePort(cfg, st, id, o).procs == st.procs
  {
    FewerRun(cfg, st, FreePort(cfg, st, id, o));
  }

  lemma StopAllLifecycle(cfg: Scheduling, st: State)
    requires Lifecycle(st)
    ensures Lifecycle(StopAll(cfg, st))
  {
    var st' := StopAll(cfg, st);
    forall x | x in st'.procs ensures SlotOK(st', st'.procs[x]) {
      assert SlotOK(st, st.procs[x]);
    }
  }

  lemma StopAllLaunches(cfg: Scheduling, st: State)
    requires LaunchesOK(st)
    ensures LaunchesOK(StopAll(cfg, st))
  {
  }

  lemma StopAllCore(cfg: Scheduling, st: State)
    requires Core(cfg, st)
    ensures Core(cfg, StopAll(cfg, st))
    ensures forall x :: Runs(StopAll(cfg, st), x) ==> Runs(st, x) && Survives(cfg, x)
  {
    StopAllLifecycle(cfg, st);
    StopAllLaunches(cfg, st);
    FewerRun(cfg, st, StopAll(cfg, st));
  }

  // Launching.

  /** No other running slot holds the GPU id needs, but for its own shadow. */
  ghost predicate GPUFree(cfg: Scheduling, st: State, id: string) {
    forall x :: Runs(st, x) && x != id && SameCard(cfg, id, x) ==> Shadows(cfg, id, x)
  }

  /** No other running slot holds it at all. */
  ghost predicate CardFree(cfg: Scheduling, st: State, id: string) {
    forall x :: Runs(st, x) && x != id ==> !SameCard(cfg, id, x)
  }

  /** The scheduler may launch a while b runs: not on one GPU (but for a's own shadow), not
      both coding, and beside a coding model only survivors. */
  predicate MayJoin(cfg: Scheduling, a: string, b: string) {
    && a != b && (SameCard(cfg, a, b) ==> Shadows(cfg, a, b))
    && (At(cfg, a).mode == Coding ==> Survives(cfg, b)) && (At(cfg, b).mode == Coding ==> Survives(cfg, a))
  }

  /** id may run beside everything that runs. */
  ghost predicate Beside(cfg: Scheduling, st: State, id: string) {
    forall x :: Runs(st, x) && x != id ==> MayJoin(cfg, id, x)
  }

  lemma BesideIsFree(cfg: Scheduling, st: State, id: string)
    requires Beside(cfg, st, id)
    ensures GPUFree(cfg, st, id)
  {
  }

  /** If only id may have started to run and its GPU was free, one owner stays one. */
  lemma OneMoreRuns(cfg: Scheduling, st: State, st': State, id: string)
    requires OneOwner(cfg, st) && GPUFree(cfg, st, id)
    requires forall x :: Runs(st', x) ==> x == id || Runs(st, x)
    ensures OneOwner(cfg, st')
  {
  }

  lemma PlaceLifecycle(st: State, id: string, started: bool)
    requires Lifecycle(st)
    ensures Lifecycle(Place(st, id, started))
  {
    var st' := Place(st, id, started);
    forall x | x in st'.procs && x != id ensures SlotOK(st', st'.procs[x]) {
      assert SlotOK(st, st.procs[x]);
    }
  }

  lemma PlaceLaunches(st: State, id: string, started: bool)
    requires LaunchesOK(st)
    ensures LaunchesOK(Place(st, id, started))
  {
  }

  lemma PlaceRuns(st: State, id: string, started: bool)
    requires LaunchesOK(st)
    ensures forall x :: Runs(Place(st, id, started), x) ==> x == id || Runs(st, x)
  {
  }

  lemma PlaceCore(cfg: Scheduling, st: State, id: string, started: bool)
    requires Core(cfg, st) && Known(cfg, id) && GPUFree(cfg, st, id)
    ensures Core(cfg, Place(st, id, started))
    ensures forall x :: Runs(Place(st, id, started), x) ==> x == id || Runs(st, x)
  {
    PlaceLifecycle(st, id, started);
    PlaceLaunches(st, id, started);
    PlaceRuns(st, id, started);
    OneMoreRuns(cfg, st, Place(st, id, started), id);
  }

  lemma LaunchCore(cfg: Scheduling, st: State, id: string, o: Oracle)
    requires Core(cfg, st) && Known(cfg, id) && GPUFree(cfg, st, id)
    ensures Core(cfg, Launch(cfg, st, id, o))
    ensures forall x :: Runs(Launch(cfg, st, id, o), x) ==> x == id || Runs(st, x)
  {
    if At(cfg, id).command == "" {
      PlaceCore(cfg, st, id, false);
    } else {
      FreePortCore(cfg, st, id, o);
      PlaceCore(cfg, FreePort(cfg, st, id, o), id, id in o.starts);
    }
  }

  lemma RerunLifecycle(st: State, id: string)
    requires Lifecycle(st) && id in st.procs
    ensures Lifecycle(Rerun(st, id))
  {
    assert SlotOK(st, st.procs[id]);
    SlotLifecycle(st, Rerun(st, id), id);
  }

  lemma RerunLaunches(st: State, id: string)
    requires LaunchesOK(st) && id in st.procs
    ensures LaunchesOK(Rerun(st, id))
  {
  }

  lemma RerunRuns(st: State, id: string)
    requires LaunchesOK(st) && id in st.procs
    ensures forall x :: Runs(Rerun(st, id), x) ==> x == id || Runs(st, x)
  {
  }

  lemma RerunCore(cfg: Scheduling, st: State, id: string)
    requires Core(cfg, st) && id in st.procs && GPUFree(cfg, st, id)
    ensures Core(cfg, Rerun(st, id))
    ensures forall x :: Runs(Rerun(st, id), x) ==> x == id || Runs(st, x)
    ensures SteadyBut(st, Rerun(st, id), id) && !Asleep(Rerun(st, id), id)
  {
    RerunLifecycle(st, id);
    RerunLaunches(st, id);
    RerunRuns(st, id);
    OneMoreRuns(cfg, st, Rerun(st, id), id);
  }

  /** Two owners of one card are a resident member and its shadow. */
  lemma SecondOwner(cfg: Scheduling, st: State, id: string, a: string, b: string)
    requires OneOwner(cfg, st) && At(cfg, id).gpu != ""
    requires a in Owners(cfg, st, id) && b in Owners(cfg, st, id) && a != b
    ensures At(cfg, a).resident && At(cfg, b).resident
  {
    assert Runs(st, a) && Runs(st, b) && SameCard(cfg, a, b);
    if Shadows(cfg, a, b) {
      ShadowEntry(cfg, a, b);
    } else {
      ShadowEntry(cfg, b, a);
    }
  }

  /** Stopping at the first same-GPU owner is enough: if there is a second one, both are
      resident and the request is refused; otherwise the card is free after the eviction. */
  lemma ScanSuffices(cfg: Scheduling, st: State, id: string, o: Oracle)
    requires Core(cfg, st) && At(cfg, id).gpu != ""
    ensures forall a, b :: a in Owners(cfg, st, id) && b in Owners(cfg, st, id) ==>
      a == b || (At(cfg, a).resident && Acquire(cfg, st, id, o) == None)
    ensures Acquire(cfg, st, id, o).Some? ==> Owners(cfg, Acquire(cfg, st, id, o).value, id) == {}
  {
    hide Lifecycle, LaunchesOK, BackoffOK, KeysOK, OneOwner, Shadows;
    forall a, b | a in Owners(cfg, st, id) && b in Owners(cfg, st, id) && a != b
      ensures At(cfg, a).resident && Acquire(cfg, st, id, o) == None
    {
      SecondOwner(cfg, st, id, a, b);
      var v := FirstOwner(cfg, st, id, o);
      SecondOwner(cfg, st, id, v, if v == a then b else a);
    }
    if Owners(cfg, st, id) != {} {
      var v := FirstOwner(cfg, st, id, o);
      SuspendCore(cfg, st, v);
      assert !Runs(Suspend(st, v), v);
    }
  }

  lemma AcquireCore(cfg: Scheduling, st: State, id: string, o: Oracle)
    requires Core(cfg, st) && Acquire(cfg, st, id, o).Some?
    ensures var s1 := Acquire(cfg, st, id, o).value;
      Core(cfg, s1) && CardFree(cfg, s1, id) && s1.procs.Keys == st.procs.Keys
      && forall x :: Runs(s1, x) ==> Runs(st, x)
  {
    var s1 := Acquire(cfg, st, id, o).value;
    if At(cfg, id).gpu != "" {
      ScanSuffices(cfg, st, id, o);
      if Owners(cfg, st, id) != {} {
        SuspendCore(cfg, st, FirstOwner(cfg, st, id, o));
      }
      forall x | Runs(s1, x) && x != id ensures !SameCard(cfg, id, x) {
        assert x !in Owners(cfg, s1, id);
      }
    }
  }

  lemma RelaunchCore(cfg: Scheduling, st: State, id: string, o: Oracle)
    requires Core(cfg, st) && GPUFree(cfg, st, id)
    ensures Core(cfg, Relaunch(cfg, st, id, o))
    ensures Relaunch(cfg, st, id, o).procs.Keys == st.procs.Keys
    ensures forall x :: Runs(Relaunch(cfg, st, id, o), x) ==> x == id || Runs(st, x)
    ensures SteadyBut(st, Relaunch(cfg, st, id, o), id) && (Asleep(Relaunch(cfg, st, id, o), id) ==> Asleep(st, id))
  {
    FreePortCore(cfg, st, id, o);
    if id in o.starts && id in st.procs {
      RerunCore(cfg, FreePort(cfg, st, id, o), id);
    }
  }

  // Switching.

  lemma FreePortShape(cfg: Scheduling, st: State, id: string, o: Oracle)
    ensures var st' := FreePort(cfg, st, id, o);
      && st'.procs == st.procs && st'.expected == st.expected && st'.live <= st.live
      && st'.nextProc == st.nextProc && st'.nextCh == st.nextCh && st'.closes == st.closes
      && st'.now == st.now && st'.lastCodingAt == st.lastCodingAt && st'.codingModel == st.codingModel
  {
  }

  lemma LaunchShape(cfg: Scheduling, st: State, id: string, o: Oracle)
    ensures var st' := Launch(cfg, st, id, o);
      && st'.procs.Keys == st.procs.Keys + {id}
      && (forall x :: x in st.procs && x != id ==> st'.procs[x] == st.procs[x])
      && !st'.procs[id].sleeping && !st'.procs[id].chClosed
      && st'.now == st.now && st'.lastCodingAt == st.lastCodingAt && st'.codingModel == st.codingModel
  {
    if At(cfg, id).command != "" {
      FreePortShape(cfg, st, id, o);
      assert Launch(cfg, st, id, o) == Place(FreePort(cfg, st, id, o), id, id in o.starts);
    }
  }

  /** What one target changes: at most its own slot, and nothing if it is asleep. */
  lemma TargetShape(cfg: Scheduling, st: State, id: string, o: Oracle)
    ensures var st' := Target(cfg, st, id, o);
      && st'.procs.Keys == st.procs.Keys + {id}
      && (forall x :: x in st.procs && x != id ==> st'.procs[x] == st.procs[x])
      && (Asleep(st, id) ==> st'.procs == st.procs)
      && (Asleep(st', id) ==> Asleep(st, id))
      && (ClosedSlot(st', id) ==> ClosedSlot(st, id))
      && st'.now == st.now && st'.lastCodingAt == st.lastCodingAt && st'.codingModel == st.codingModel
  {
    if !(Runs(st, id) || Asleep(st, id)) {
      LaunchShape(cfg, st, id, o);
    }
  }

  lemma TargetCore(cfg: Scheduling, st: State, id: string, o: Oracle)
    requires Core(cfg, st) && Known(cfg, id) && GPUFree(cfg, st, id)
    ensures Core(cfg, Target(cfg, st, id, o))
    ensures forall x :: Runs(Target(cfg, st, id, o), x) ==> x == id || Runs(st, x)
  {
    if Runs(st, id) || Asleep(st, id) {
      assert Target(cfg, st, id, o) == st.(expected := st.expected + {id}) == st;
    } else {
      LaunchCore(cfg, st, id, o);
    }
  }

  /** The targets of one switch can be launched side by side. */
  ghost predicate Launchable(cfg: Scheduling, st: State, ids: seq<string>) {
    && (forall id :: id in ids ==> Known(cfg, id) && Beside(cfg, st, id))
    && (forall i, j | 0 <= i < j < |ids| :: MayJoin(cfg, ids[j], ids[i]))
  }

  lemma LaunchableRest(cfg: Scheduling, st: State, st': State, ids: seq<string>)
    requires Launchable(cfg, st, ids) && ids != []
    requires forall x :: Runs(st', x) ==> x == ids[0] || Runs(st, x)
    ensures Launchable(cfg, st', ids[1..])
  {
    hide MayJoin, Runs;
    var rest := ids[1..];
    forall id | id in rest ensures Known(cfg, id) && Beside(cfg, st', id) {
      var j :| 0 <= j < |rest| && rest[j] == id;
      assert ids[j + 1] == id && MayJoin(cfg, id, ids[0]);
      assert Beside(cfg, st, id);
    }
  }

  lemma {:induction false} TargetsCore(cfg: Scheduling, st: State, ids: seq<string>, o: Oracle)
    requires Core(cfg, st) && Launchable(cfg, st, ids)
    ensures Core(cfg, Targets(cfg, st, ids, o))
    decreases |ids|
  {
    if ids != [] {
      var st' := Target(cfg, st, ids[0], o);
      BesideIsFree(cfg, st, ids[0]);
      TargetCore(cfg, st, ids[0], o);
      LaunchableRest(cfg, st, st', ids);
      TargetsCore(cfg, st', ids[1..], o);
    }
  }

  /** The targets end up with a slot each; no other slot and no sleeping target changes. */
  lemma {:induction false} TargetsShape(cfg: Scheduling, st: State, ids: seq<string>, o: Oracle)
    ensures var st' := Targets(cfg, st, ids, o);
      && (forall x :: x in st'.procs <==> x in st.procs || x in ids)
      && (forall x | x in st.procs && (x !in ids || Asleep(st, x)) :: st'.procs[x] == st.procs[x])
      && (forall x | x in ids && Asleep(st', x) :: Asleep(st, x))
      && st'.now == st.now && st'.lastCodingAt == st.lastCodingAt && st'.codingModel == st.codingModel
    decreases |ids|
  {
    hide Target;
    if ids != [] {
      var s1 := Target(cfg, st, ids[0], o);
      TargetShape(cfg, st, ids[0], o);
      TargetsShape(cfg, s1, ids[1..], o);
      assert ids == [ids[0]] + ids[1..];
      assert forall x :: x in st.procs ==> x in s1.procs;
    }
  }

  /** A closed channel after the launches was there, and closed, before them. */
  lemma {:induction false} TargetsClosed(cfg: Scheduling, st: State, ids: seq<string>, o: Oracle, x: string)
    requires ClosedSlot(Targets(cfg, st, ids, o), x)
    ensures ClosedSlot(st, x)
    decreases |ids|
  {
    if ids != [] {
      TargetsClosed(cfg, Target(cfg, st, ids[0], o), ids[1..], o, x);
      TargetShape(cfg, st, ids[0], o);
    }
  }

  /** The two kinds of switch the scheduler performs. */
  ghost predicate GoodTarget(cfg: Scheduling, ids: seq<string>, mode: Mode) {
    && ids != []
    && (|| (mode == Background && IsGroup(cfg, ids))
        || (mode == Coding && |ids| == 1 && ids[0] != "" && Known(cfg, ids[0]) && At(cfg, ids[0]).mode == Coding))
  }

  lemma AtKey(cfg: Scheduling, id: string)
    requires KeysTrimmed(cfg) && id in cfg.models
    ensures At(cfg, id) == cfg.models[id]
  {
  }

  lemma TargetModes(cfg: Scheduling, ids: seq<string>, mode: Mode, x: string)
    requires Good(cfg) && GoodTarget(cfg, ids, mode) && x in ids
    ensures Known(cfg, x) && (At(cfg, x).mode == Coding <==> mode == Coding)
    ensures mode == Coding ==> x == ids[0]
    ensures mode != Coding ==> InGroup(cfg, x)
  {
    if mode != Coding {
      AtKey(cfg, x);
    }
  }

  /** A survivor holds the card of another model only if it is resident, and then that
      model is itself, under another spelling. */
  lemma SurvivorCard(cfg: Scheduling, id: string, x: string)
    requires Good(cfg) && Known(cfg, id) && Known(cfg, x) && Survives(cfg, x) && SameCard(cfg, id, x)
    ensures TrimSpace(id) == TrimSpace(x) && At(cfg, x).resident
  {
  }

  /** Once everything but the survivors is stopped, the targets can be launched. */
  lemma StopAllLaunchable(cfg: Scheduling, st: State, ids: seq<string>, mode: Mode)
    requires Good(cfg) && Core(cfg, st) && GoodTarget(cfg, ids, mode)
    ensures Launchable(cfg, StopAll(cfg, st), ids)
  {
    var s0 := StopAll(cfg, st);
    StopAllCore(cfg, st);
    forall id | id in ids ensures Known(cfg, id) && Beside(cfg, s0, id) {
      TargetModes(cfg, ids, mode, id);
      forall x | Runs(s0, x) && x != id ensures MayJoin(cfg, id, x) {
        assert x in st.procs && Survives(cfg, x);
        if SameCard(cfg, id, x) {
          SurvivorCard(cfg, id, x);
        }
      }
    }
    forall i, j | 0 <= i < j < |ids| ensures MayJoin(cfg, ids[j], ids[i]) {
      assert ids[i] in ids && ids[j] in ids;
      assert InGroup(cfg, ids[i]) && InGroup(cfg, ids[j]);
      AtKey(cfg, ids[i]);
      AtKey(cfg, ids[j]);
    }
  }

  lemma RegisterCore(cfg: Scheduling, st: State, ids: seq<string>, mode: Mode)
    requires Core(cfg, st) && mode in {Coding, Background} && ids != [] && forall id :: id in ids ==> id in st.procs
    ensures Core(cfg, Register(st, ids, mode)) && FlightOK(Register(st, ids, mode))
  {
    var st' := Register(st, ids, mode);
    assert st'.expected == st.expected;
    SameSlotsCore(cfg, st, st');
  }

  lemma SwitchCore(cfg: Scheduling, st: State, ids: seq<string>, mode: Mode, o: Oracle)
    requires Good(cfg) && Core(cfg, st) && GoodTarget(cfg, ids, mode)
    ensures Core(cfg, SwitchTo(cfg, st, ids, mode, o)) && FlightOK(SwitchTo(cfg, st, ids, mode, o))
  {
    var s0 := StopAll(cfg, st);
    StopAllCore(cfg, st);
    StopAllLaunchable(cfg, st, ids, mode);
    TargetsCore(cfg, s0, ids, o);
    TargetsShape(cfg, s0, ids, o);
    RegisterCore(cfg, Targets(cfg, s0, ids, o), ids, mode);
  }

  /** A switch leaves exactly the survivors and the targets; survivors that are not
      targets, and sleeping survivors, keep their slots as they are. */
  lemma SwitchShape(cfg: Scheduling, st: State, ids: seq<string>, mode: Mode, o: Oracle)
    requires ids != []
    ensures var st' := SwitchTo(cfg, st, ids, mode, o);
      && (forall x :: x in st'.procs <==> (x in st.procs && Survives(cfg, x)) || x in ids)
      && (forall x | x in st.procs && Survives(cfg, x) && (x !in ids || Asleep(st, x)) :: st'.procs[x] == st.procs[x])
      && (forall x | x in ids && Asleep(st', x) :: Asleep(st, x) && Survives(cfg, x))
      && st'.codingModel == (if mode == Coding then ids[0] else "")
      && st'.lastCodingAt == (if mode == Coding then st.now else st.lastCodingAt) && st'.now == st.now
      && st'.flight.Switching? && st'.flight.mode == mode
  {
    TargetsShape(cfg, StopAll(cfg, st), ids, o);
  }

  lemma SwitchCoding(cfg: Scheduling, st: State, ids: seq<string>, mode: Mode, o: Oracle)
    requires Good(cfg) && Core(cfg, st) && GoodTarget(cfg, ids, mode) && st.lastCodingAt <= st.now
    ensures CodingOK(cfg, SwitchTo(cfg, st, ids, mode, o))
  {
    hide SwitchTo, Good, KeysOK, OneOwner, Lifecycle, LaunchesOK, BackoffOK;
    var st' := SwitchTo(cfg, st, ids, mode, o);
    SwitchShape(cfg, st, ids, mode, o);
    TargetModes(cfg, ids, mode, ids[0]);
    forall x | x in st'.procs && At(cfg, x).mode == Coding ensures mode == Coding && x == ids[0] {
      if x in ids {
        TargetModes(cfg, ids, mode, x);
      }
    }
    forall b | b in st'.procs && mode == Coding && b != ids[0] ensures Survives(cfg, b) {
      if b in ids {
        TargetModes(cfg, ids, mode, b);
      }
    }
  }

  lemma SwitchInv(cfg: Scheduling, st: State, ids: seq<string>, mode: Mode, o: Oracle)
    requires Good(cfg) && Inv(cfg, st) && GoodTarget(cfg, ids, mode)
    ensures Inv(cfg, SwitchTo(cfg, st, ids, mode, o))
  {
    SwitchCore(cfg, st, ids, mode, o);
    SwitchCoding(cfg, st, ids, mode, o);
  }
}
