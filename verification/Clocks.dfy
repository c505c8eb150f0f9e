/** What the clock decides: how long a lease, a backoff window and idleness last, event by
    event, and what the in-flight count counts. */
module Clocks {
  import opened Text
  import opened Config
  import opened Backoff
  import opened Machine
  import opened Invariants
  import opened Steps
  import opened Moves
  import opened Safety
  import opened Theorems
  import opened Requests
  import opened Ports
  import opened Aliases

  // The lease.

  /** A startup member that declares no GPU and is not resident. */
  ghost predicate CpuMember(cfg: Scheduling, id: string) {
    InGroup(cfg, id) && !cfg.models[id].resident && cfg.models[id].gpu == "" && Askable(id)
  }

  ghost predicate Running(cfg: Scheduling, st: State, c: string) {
    st.codingModel == c && c != "" && c in st.procs && st.procs[c].cmd != 0
  }

  lemma LaterInv(cfg: Scheduling, st: State, d: nat)
    requires Inv(cfg, st)
    ensures Inv(cfg, st.(lastCodingAt := st.now).(now := st.now + d)) && Inv(cfg, st.(now := st.now + d))
  {
    TablesInv(cfg, st, st.(now := st.now + d));
    TablesInv(cfg, st, st.(lastCodingAt := st.now));
    TablesInv(cfg, st.(lastCodingAt := st.now), st.(lastCodingAt := st.now).(now := st.now + d));
  }

  /** Coding traffic: a touch, or a request for the coding model that runs. */
  predicate CodingTraffic(ev: Event, c: string) {
    ev.Touched? || (ev.Ask? && ev.id == c)
  }

  lemma TrafficRenews(cfg: Scheduling, st: State, ev: Event, c: string)
    requires Good(cfg) && Inv(cfg, st) && Running(cfg, st, c) && CodingTraffic(ev, c) && Askable(c)
    ensures Apply(cfg, st, ev) == st.(lastCodingAt := st.now)
  {
    hide SwitchTo, CodingRunning, Core, FlightOK;
    if ev.Ask? {
      CodingIsCoding(cfg, st);
      RequestIsGuarded(cfg, st, c, ev.o);
    }
  }

  lemma CodingIsCoding(cfg: Scheduling, st: State)
    requires Inv(cfg, st) && st.codingModel != ""
    ensures At(cfg, st.codingModel).mode == Coding && Known(cfg, st.codingModel)
  {
  }

  /** A member that declares no GPU is asked for some time after coding traffic: within the
      lease its caller gets a channel nobody closes and everything stays; from the end of
      the lease on its own channel, and the coding model is gone. */
  lemma LeaseDecides(cfg: Scheduling, st: State, c: string, traffic: Event, d: nat, m: string, o: Oracle)
    requires Good(cfg) && Inv(cfg, st) && st.flight == Idle && Running(cfg, st, c) && Askable(c)
    requires CodingTraffic(traffic, c) && CpuMember(cfg, m) && !Asleep(st, m) && IsGroup(cfg, o.group)
    ensures var st1 := Exec(cfg, st, [traffic, Tick(d)]);
      var r := Request(cfg, st1, m, o);
      if d < cfg.lease then r.1 == Never && r.0.procs == st.procs && r.0.codingModel == c
      else r.1.Granted? && r.0.codingModel == "" && c !in r.0.procs
  {
    hide Request, Inv, Good, OnLease, LeaseActive, IsGroup, CodingTraffic, CpuMember, Askable, Asleep, Apply;
    TrafficRenews(cfg, st, traffic, c);
    var st1 := st.(lastCodingAt := st.now).(now := st.now + d);
    TwoEvents(cfg, st, traffic, Tick(d));
    assert Apply(cfg, st.(lastCodingAt := st.now), Tick(d)) == st1 by { TickApplies(cfg, st.(lastCodingAt := st.now), d); }
    LaterInv(cfg, st, d);
    CodingIsCoding(cfg, st);
    assert OnLease(cfg, st1) <==> d < cfg.lease by { LeaseCounts(cfg, st1, c); }
    assert Asleep(st1, m) <==> Asleep(st, m) by { LaterAsleep(st, d, m); }
    MemberOnLease(cfg, st1, m, o);
  }

  lemma TickApplies(cfg: Scheduling, st: State, d: nat)
    ensures Apply(cfg, st, Tick(d)) == st.(now := st.now + d)
  {
  }

  lemma LaterAsleep(st: State, d: nat, m: string)
    ensures Asleep(st.(lastCodingAt := st.now).(now := st.now + d), m) <==> Asleep(st, m)
  {
  }

  lemma MemberOnLease(cfg: Scheduling, st: State, m: string, o: Oracle)
    requires Good(cfg) && Inv(cfg, st) && st.flight == Idle && st.codingModel != ""
    requires CpuMember(cfg, m) && !Asleep(st, m) && IsGroup(cfg, o.group)
    ensures var r := Request(cfg, st, m, o);
      if OnLease(cfg, st) then r.1 == Never && r.0.procs == st.procs && r.0.codingModel == st.codingModel
      else r.1.Granted? && r.0.codingModel == "" && st.codingModel !in r.0.procs
  {
    hide Request, Inv, Good, OnLease, LeaseActive, IsGroup;
    CpuMemberServedExactlyWhen(cfg, st, m, o);
    if OnLease(cfg, st) {
      LeaseIs(cfg, st);
      MemberWaitsInVain(cfg, st, m, o);
    }
  }

  lemma TwoEvents(cfg: Scheduling, st: State, a: Event, b: Event)
    ensures Exec(cfg, st, [a, b]) == Apply(cfg, Apply(cfg, st, a), b)
  {
    hide Apply;
    assert [a, b][1..] == [b];
    OneEvent(cfg, Apply(cfg, st, a), b);
  }

  lemma OneEvent(cfg: Scheduling, st: State, a: Event)
    ensures Exec(cfg, st, [a]) == Apply(cfg, st, a)
  {
    hide Apply;
    assert [a][1..] == [];
  }

  lemma LeaseCounts(cfg: Scheduling, st: State, c: string)
    requires Running(cfg, st, c) && At(cfg, c).mode == Coding
    ensures OnLease(cfg, st) <==> cfg.lease > 0 && st.now - st.lastCodingAt < cfg.lease
  {
    assert Runs(st, c);
  }

  lemma MemberWaitsInVain(cfg: Scheduling, st: State, m: string, o: Oracle)
    requires Good(cfg) && CpuMember(cfg, m) && st.codingModel != "" && LeaseActive(cfg, st)
    ensures Request(cfg, st, m, o).0 == TouchFor(st, m, Background)
  {
    hide Request, LeaseActive, GroupSwitch, Restart;
    AtKey(cfg, m);
    CpuRequest(cfg, st, m, o);
    TouchLease(cfg, st, m);
  }

  /** From every reachable state in which a coding model is registered, one lease without
      coding traffic is enough. */
  lemma LeaseEnds(cfg: Scheduling, evs: seq<Event>, m: string, o: Oracle)
    requires Good(cfg) && Legal(cfg, evs) && IsGroup(cfg, o.group) && CpuMember(cfg, m)
    requires var st := Reached(cfg, evs); st.codingModel != "" && st.flight == Idle && !Asleep(st, m)
    ensures var r := Request(cfg, Exec(cfg, Reached(cfg, evs), [Tick(Max(cfg.lease))]), m, o);
      r.1.Granted? && r.0.codingModel == "" && Reached(cfg, evs).codingModel !in r.0.procs
  {
    hide Request, Core, Good, FlightOK, CodingOK;
    var st, d := Reached(cfg, evs), Max(cfg.lease);
    ReachedInv(cfg, evs);
    LaterInv(cfg, st, d);
    assert [Tick(d)][1..] == [];
    var st1 := st.(now := st.now + d);
    assert !OnLease(cfg, st1) by { NoLease(cfg, st, d); }
    CpuMemberServedExactlyWhen(cfg, st1, m, o);
  }

  function Max(lease: int): nat { if lease > 0 then lease else 0 }

  lemma NoLease(cfg: Scheduling, st: State, d: nat)
    requires CodingOK(cfg, st) && d >= cfg.lease
    ensures !OnLease(cfg, st.(now := st.now + d))
  {
  }

  /** The lease branch: it comes up exactly from the end of the lease on. */
  lemma LeaseBranchDecides(cfg: Scheduling, st: State, c: string, traffic: Event, d: nat, o: Oracle)
    requires Good(cfg) && Inv(cfg, st) && st.flight == Idle && Running(cfg, st, c) && Askable(c)
    requires CodingTraffic(traffic, c) && IsGroup(cfg, o.group)
    ensures Enabled(cfg, Exec(cfg, st, [traffic, Tick(d)]), LeaseTick(o)) <==> cfg.lease > 0 && d >= cfg.lease
  {
    hide Request, Core, Good, FlightOK;
    TrafficRenews(cfg, st, traffic, c);
    TwoEvents(cfg, st, traffic, Tick(d));
    assert st.now > 0 by { ClockRuns(cfg, st); }
  }

  lemma ClockRuns(cfg: Scheduling, st: State)
    requires Core(cfg, st)
    ensures st.now > 0
  {
  }

  // Backoff windows.

  /** The first window is half a minute, each later one twice as long up to five minutes. */
  lemma WindowsDouble(n: nat)
    requires n >= 2
    ensures Delay(FAIL_BACKOFF, 2) == 30_000_000_000
    ensures Delay(FAIL_BACKOFF, n + 1) == Min(300_000_000_000, 2 * Delay(FAIL_BACKOFF, n))
  {
    assert Pow2(0) == 1;
    assert FAIL_BACKOFF * (2 * Pow2(n - 2)) == 2 * (FAIL_BACKOFF * Pow2(n - 2));
  }

  function Failures(st: State, id: string): nat { if id in st.failCount then st.failCount[id] else 0 }

  /** How long the n-th failure in a row closes a model off. */
  function Window(n: nat): nat { if n >= 2 then Delay(FAIL_BACKOFF, n) else 0 }

  /** The command of a slot exits, nothing listens, and some time passes. */
  ghost function AfterFailure(cfg: Scheduling, st: State, id: string, o: Oracle, d: nat): State
    requires id in st.procs
  {
    var failed := Apply(cfg, st, Reaped(id, st.procs[id].cmd, o));
    failed.(now := failed.now + d)
  }

  lemma ReapIs(cfg: Scheduling, st: State, id: string, o: Oracle)
    requires id in st.procs && st.procs[id].cmd != 0 && !st.procs[id].sleeping && o.listening == {}
    ensures Apply(cfg, st, Reaped(id, st.procs[id].cmd, o)) == RecordFail(Stopped(st, id), id)
  {
  }

  lemma StoppedFails(st: State, id: string, d: nat)
    requires BackoffOK(st)
    ensures var st' := RecordFail(st, id);
      && Failures(st', id) == Failures(st, id) + 1 && st'.now == st.now
      && (BackoffActive(st'.(now := st'.now + d), id) <==> d < Window(Failures(st, id) + 1))
  {
    hide Delay;
  }

  lemma FailureOpens(cfg: Scheduling, st: State, id: string, o: Oracle, d: nat)
    requires Inv(cfg, st) && id in st.procs && st.procs[id].cmd != 0 && o.listening == {}
    ensures var st' := AfterFailure(cfg, st, id, o, d);
      && Inv(cfg, st') && !Runs(st', id) && st'.flight == st.flight
      && id in st'.procs && st'.procs[id] == st.procs[id].(cmd := 0, server := 0, readyOK := false) && !st'.procs[id].sleeping
      && st'.codingModel == st.codingModel && Failures(st', id) == Failures(st, id) + 1
      && (BackoffActive(st', id) <==> d < Window(Failures(st, id) + 1))
  {
    hide Delay, Window, RecordFail, CodingOK, FlightOK, OneOwner, KeysOK, LaunchesOK, Reap, BackoffActive;
    assert SlotOK(st, st.procs[id]);
    ReapIs(cfg, st, id, o);
    ReapInv(cfg, st, id, st.procs[id].cmd, o);
    LaterInv(cfg, Reap(cfg, st, id, st.procs[id].cmd, o), d);
    StoppedFails(Stopped(st, id), id, d);
    RecordFailShape(Stopped(st, id), id);
  }

  /** After the n-th failure in a row of a coding model a request is refused within the n-th
      window, and granted from its end on. */
  lemma WindowDecidesCoding(cfg: Scheduling, st: State, c: string, o: Oracle, d: nat, o': Oracle)
    requires Good(cfg) && Inv(cfg, st) && st.flight == Idle && c in st.procs && st.procs[c].cmd != 0 && o.listening == {}
    requires At(cfg, c).mode == Coding && Askable(c)
    ensures var r := Request(cfg, AfterFailure(cfg, st, c, o, d), c, o');
      if d < Window(Failures(st, c) + 1) then r.1 == Refused else r.1.Granted? && r.0.codingModel == c
  {
    hide AfterFailure, Window, Core, CodingOK, SwitchTo;
    FailureOpens(cfg, st, c, o, d);
    SlotKnown(cfg, st, c);
    RequestIsGuarded(cfg, AfterFailure(cfg, st, c, o, d), c, o');
    var s1 := TouchFor(AfterFailure(cfg, st, c, o, d), c, Coding);
    CodingGranted(cfg, s1, c, o');
    SwitchShape(cfg, s1, [c], Coding, o');
  }

  lemma SlotKnown(cfg: Scheduling, st: State, id: string)
    requires Inv(cfg, st) && id in st.procs
    ensures Known(cfg, id) && id in st.expected && st.nextProc > 0
  {
  }

  /** And a background model that declares no GPU is restarted by the probe loop from the
      end of its window on, and not before. */
  lemma WindowDecidesRestart(cfg: Scheduling, st: State, id: string, o: Oracle, d: nat, o': Oracle)
    requires Good(cfg) && Inv(cfg, st) && id in st.procs && st.procs[id].cmd != 0 && o.listening == {}
    requires At(cfg, id).mode == Background && At(cfg, id).gpu == "" && At(cfg, id).command != ""
    requires At(cfg, id).readinessURL != "" && id in o'.starts && o'.listening == {}
    ensures Runs(Apply(cfg, AfterFailure(cfg, st, id, o, d), Visited(id, o')), id) <==> d >= Window(Failures(st, id) + 1)
  {
    hide AfterFailure, Window, Core, CodingOK, FlightOK, Restart, BackoffActive;
    var st' := AfterFailure(cfg, st, id, o, d);
    FailureOpens(cfg, st, id, o, d);
    ForgottenInv(cfg, st', id);
    ForgottenStill(cfg, st', id);
    RestartAgain(cfg, Forgotten(st', id), id, o');
  }

  lemma ForgottenStill(cfg: Scheduling, st: State, id: string)
    requires id in st.procs && !Runs(st, id)
    ensures !Runs(Forgotten(st, id), id) && (BackoffActive(Forgotten(st, id), id) <==> BackoffActive(st, id))
  {
  }

  lemma RestartAgain(cfg: Scheduling, st: State, id: string, o: Oracle)
    requires Inv(cfg, st) && id in st.procs && !Runs(st, id) && At(cfg, id).mode == Background
    requires At(cfg, id).gpu == "" && At(cfg, id).command != "" && id in o.starts
    ensures Runs(Restart(cfg, st, id, o), id) <==> !BackoffActive(st, id)
  {
    CpuRestart(cfg, st, id, o);
  }

  // Idleness.

  /** A background model with a sleep timeout runs and is ready; no switch is under way. */
  ghost predicate Sleeper(cfg: Scheduling, st: State, id: string) {
    && Runs(st, id) && st.procs[id].readyOK && !st.procs[id].sleeping && st.flight == Idle
    && At(cfg, id).mode == Background && At(cfg, id).sleepTimeout > 0
  }

  function Count(st: State, id: string): nat { if id in st.inflight then st.inflight[id] else 0 }

  /** Some time after it was asked for, the probe loop puts it to sleep exactly when more
      than its timeout has passed and no request is in flight. */
  lemma IdleDecides(cfg: Scheduling, st: State, id: string, o: Oracle, d: nat, o': Oracle)
    requires Good(cfg) && Inv(cfg, st) && Sleeper(cfg, st, id) && st.codingModel == "" && Askable(id)
    ensures var st1 := Exec(cfg, st, [Ask(id, o), Tick(d)]);
      && Enabled(cfg, st1, Visited(id, o'))
      && (Asleep(Apply(cfg, st1, Visited(id, o')), id) <==> d > At(cfg, id).sleepTimeout && Count(st, id) == 0)
  {
    hide Good, Core, CodingOK, FlightOK, Visit, Request;
    TwoEvents(cfg, st, Ask(id, o), Tick(d));
    AskedRunning(cfg, st, id, o);
    ClockRuns(cfg, st);
    SleeperDecides(cfg, st.(lastActiveAt := st.lastActiveAt[id := st.now]), id, d, o');
  }

  lemma AskedRunning(cfg: Scheduling, st: State, id: string, o: Oracle)
    requires Inv(cfg, st) && Runs(st, id) && st.codingModel == "" && At(cfg, id).mode == Background && Askable(id)
    ensures Apply(cfg, st, Ask(id, o)) == st.(lastActiveAt := st.lastActiveAt[id := st.now])
  {
    hide GroupSwitch, AcquireAndLaunch, LeaseActive, Restart;
    SlotKnown(cfg, st, id);
    RequestIsGuarded(cfg, st, id, o);
  }

  /** The same for a model nobody has asked for yet, from the moment it becomes ready. */
  lemma IdleFromReady(cfg: Scheduling, st: State, id: string, o: Oracle, d: nat, o': Oracle)
    requires Good(cfg) && Inv(cfg, st) && Runs(st, id) && !st.procs[id].readyOK && !st.procs[id].sleeping
    requires id !in st.lastActiveAt && At(cfg, id).mode == Background && At(cfg, id).sleepTimeout > 0
    requires st.flight.Switching? && id in st.flight.wait
    ensures var st1 := Exec(cfg, st, [Finish([id], o), Tick(d)]);
      && Enabled(cfg, st1, Visited(id, o'))
      && (Asleep(Apply(cfg, st1, Visited(id, o')), id) <==> d > At(cfg, id).sleepTimeout && Count(st, id) == 0)
  {
    hide Good, Core, CodingOK, FlightOK, Visit, MarkReady, Sleeper;
    TwoEvents(cfg, st, Finish([id], o), Tick(d));
    FinishOne(cfg, st, id, o);
    ClockRuns(cfg, st);
    SleeperDecides(cfg, MarkReady(cfg, st, id, o).(flight := Idle), id, d, o');
  }

  lemma FinishOne(cfg: Scheduling, st: State, id: string, o: Oracle)
    requires Runs(st, id) && !st.procs[id].readyOK && !st.procs[id].sleeping && id !in st.lastActiveAt
    requires At(cfg, id).mode == Background && At(cfg, id).sleepTimeout > 0
    ensures var st1 := MarkReady(cfg, st, id, o).(flight := Idle);
      && Apply(cfg, st, Finish([id], o)) == st1 && Sleeper(cfg, st1, id)
      && id in st1.lastActiveAt && st1.lastActiveAt[id] == st1.now == st.now && Count(st1, id) == Count(st, id)
  {
    hide MarkReady;
    assert [id][1..] == [];
    assert MarkAll(cfg, st, [id], o) == MarkAll(cfg, MarkReady(cfg, st, id, o), [], o);
    ReadyKeepsRunning(cfg, st, id, o);
    ReadyStartsClock(cfg, st, id, o);
  }

  lemma ReadyStartsClock(cfg: Scheduling, st: State, id: string, o: Oracle)
    requires id in st.procs && !st.procs[id].readyOK && id !in st.lastActiveAt
    ensures var st' := MarkReady(cfg, st, id, o);
      && id in st'.procs && st'.procs[id].readyOK && st'.procs[id].sleeping == st.procs[id].sleeping
      && id in st'.lastActiveAt && st'.lastActiveAt[id] == st'.now == st.now && st'.inflight == st.inflight
  {
  }

  lemma SleeperDecides(cfg: Scheduling, st: State, id: string, d: nat, o: Oracle)
    requires Sleeper(cfg, st, id) && id in st.lastActiveAt && 0 < st.lastActiveAt[id] == st.now
    ensures var st1 := st.(now := st.now + d);
      && Enabled(cfg, st1, Visited(id, o))
      && (Asleep(Apply(cfg, st1, Visited(id, o)), id) <==> d > At(cfg, id).sleepTimeout && Count(st, id) == 0)
  {
    hide Listens, Restart, MarkReady;
  }

  lemma ReadyKeepsRunning(cfg: Scheduling, st: State, id: string, o: Oracle)
    requires Runs(st, id)
    ensures Runs(MarkReady(cfg, st, id, o), id)
  {
    hide Listens;
    var sl' := MarkReady(cfg, st, id, o).procs[id];
    assert sl'.cmd == st.procs[id].cmd && (sl'.cmd == 0 ==> sl'.server == st.procs[id].server);
  }

  // Requests in flight.

  function Delta(ev: Event, id: string): int {
    if ev == Entered(id) then 1 else if ev == Left(id) then -1 else 0
  }

  /** How often id was entered, less how often it was left. */
  function Balance(evs: seq<Event>, id: string): int {
    if evs == [] then 0 else Delta(evs[0], id) + Balance(evs[1..], id)
  }

  /** Nobody leaves who has not entered, counted from k. */
  predicate Orderly(evs: seq<Event>, id: string, k: int) {
    k >= 0 && (evs == [] || Orderly(evs[1..], id, k + Delta(evs[0], id)))
  }

  lemma MarkReadyInflight(cfg: Scheduling, st: State, id: string, o: Oracle)
    ensures MarkReady(cfg, st, id, o).inflight == st.inflight
  {
  }

  lemma MoveInflight(cfg: Scheduling, ev: Event, st: State, m: Move)
    requires Fine(cfg, ev, st, m) && !ev.Entered? && !ev.Left?
    ensures Do(cfg, st, m).inflight == st.inflight
  {
    match m
    case Mark(id, o) => MarkReadyInflight(cfg, st, id, o);
    case _ =>
  }

  lemma {:induction false} ChainInflight(cfg: Scheduling, ev: Event, st: State, ms: seq<Move>, st': State)
    requires Chain(cfg, ev, st, ms, st') && !ev.Entered? && !ev.Left?
    ensures st'.inflight == st.inflight
    decreases |ms|
  {
    hide Fine, Do;
    if ms != [] {
      MoveInflight(cfg, ev, st, ms[0]);
      ChainInflight(cfg, ev, Do(cfg, st, ms[0]), ms[1..], st');
    }
  }

  lemma TablesCount(cfg: Scheduling, st: State, ev: Event, id: string)
    requires (ev.Entered? || ev.Left?) && Count(st, id) + Delta(ev, id) >= 0
    ensures Count(Apply(cfg, st, ev), id) == Count(st, id) + Delta(ev, id)
  {
    hide Request, Visit, Reap, Recover, GroupSwitch, MarkAll, MarkReady;
    var s1 := Apply(cfg, st, ev);
    if ev.Entered? {
      assert s1.inflight == st.inflight[ev.id := Count(st, ev.id) + 1];
    } else {
      assert s1.inflight == if Count(st, ev.id) > 0 then st.inflight[ev.id := Count(st, ev.id) - 1] else st.inflight;
    }
  }

  lemma StepCounts(cfg: Scheduling, st: State, ev: Event, id: string)
    requires Good(cfg) && Inv(cfg, st) && Enabled(cfg, st, ev) && Count(st, id) + Delta(ev, id) >= 0
    ensures Count(Apply(cfg, st, ev), id) == Count(st, id) + Delta(ev, id)
  {
    hide Inv, Good, Apply, Enabled;
    if ev.Entered? || ev.Left? {
      TablesCount(cfg, st, ev, id);
    } else {
      var ms := StepMoves(cfg, st, ev);
      ChainInflight(cfg, ev, st, ms, Apply(cfg, st, ev));
    }
  }

  /** Over every run in which nobody leaves who has not entered, the count of a model is the
      number of requests in flight to it. */
  lemma {:induction false} CountIsBalance(cfg: Scheduling, st: State, evs: seq<Event>, id: string)
    requires Good(cfg) && Inv(cfg, st) && IsRun(cfg, st, evs) && Orderly(evs, id, Count(st, id))
    ensures Count(Exec(cfg, st, evs), id) == Count(st, id) + Balance(evs, id)
    decreases |evs|
  {
    hide Inv, Apply, Enabled, Count;
    if evs != [] {
      StepCounts(cfg, st, evs[0], id);
      StepInv(cfg, st, evs[0]);
      CountIsBalance(cfg, Apply(cfg, st, evs[0]), evs[1..], id);
    }
  }
}
