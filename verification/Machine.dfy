/** The process scheduler as a state machine (internal/scheduler).  A State is what the
    scheduler's mutexes protect, together with the part of the operating system it
    observes.  Every step is deterministic given an Oracle, which carries everything the
    environment decides: which commands start, which servers listen, which probes
    succeed, and which same-GPU owner a map iteration meets first. */
module Machine {
  import opened Text
  import opened Config
  import opened Backoff

  const PROXY_MODEL_ID := "llm_proxy"

  /** A procSlot.  Processes are named by launch numbers (0: none): cmd is the wrapper
      command, server the process known to hold the port.  By the own-server assumption a
      slot's port lookup finds the server of its own launch or nothing. */
  datatype Slot = Slot(cmd: nat, server: nat, readyOK: bool, ch: nat, chClosed: bool, sleeping: bool) {
    /** The launch behind the slot. */
    function Proc(): nat { if cmd != 0 then cmd else server }

    predicate Running(live: set<nat>) { cmd != 0 || (server != 0 && server in live) }
  }

  /** The registered switch; while one is registered its caller holds switchMu.  ids are
      all targets, wait those whose readiness is awaited. */
  datatype Flight = Idle | Switching(target: string, mode: Mode, ids: set<string>, wait: set<string>, cancelled: bool)

  datatype State = State(
    procs: map<string, Slot>, expected: set<string>, codingModel: string, lastCodingAt: nat, started: bool,
    flight: Flight, preempted: bool,
    failCount: map<string, nat>, nextRestartAt: map<string, nat>,
    lastActiveAt: map<string, nat>, inflight: map<string, nat>,
    // clock and operating system: launches still alive, next launch number
    now: nat, live: set<nat>, nextProc: nat,
    // channels: next identity, and every close performed so far
    nextCh: nat, closes: multiset<nat>,
    // history: (launched, victim) whenever freeing a port killed a running slot's process
    freed: set<(string, string)>)

  datatype Oracle = Oracle(starts: set<string>, listening: set<nat>, probes: set<string>, pick: string, group: seq<string>)

  const INIT := State(map[], {}, "", 0, false, Idle, false, map[], map[], map[], map[], 1, {}, 1, 0, multiset{}, {})

  predicate Runs(st: State, id: string) {
    id in st.procs && st.procs[id].Running(st.live)
  }

  /** stopAll keeps resident background members and those that declare no GPU. */
  predicate Survives(cfg: Scheduling, id: string) {
    var e := At(cfg, id);
    e.mode == Background && (e.resident || e.gpu == "")
  }

  predicate CodingRunning(cfg: Scheduling, st: State) {
    exists id :: id in st.procs && Runs(st, id) && At(cfg, id).mode == Coding
  }

  predicate LeaseActive(cfg: Scheduling, st: State) {
    CodingRunning(cfg, st) && cfg.lease > 0 && st.lastCodingAt != 0 && st.now - st.lastCodingAt < cfg.lease
  }

  predicate BackoffActive(st: State, id: string) {
    id in st.nextRestartAt && st.now < st.nextRestartAt[id]
  }

  // Slot-level operations.

  /** Does the port lookup for slot sl find a listener? */
  predicate Listens(cfg: Scheduling, st: State, id: string, sl: Slot, o: Oracle) {
    At(cfg, id).port > 0 && sl.Proc() != 0 && sl.Proc() in st.live && sl.Proc() in o.listening
  }

  function ClearFail(st: State, id: string): State {
    st.(failCount := st.failCount - {id}, nextRestartAt := st.nextRestartAt - {id})
  }

  function RecordFail(st: State, id: string): State {
    var n := (if id in st.failCount then st.failCount[id] else 0) + 1;
    var s1 := st.(failCount := st.failCount[id := n]);
    if n <= 1 then s1
    else s1.(nextRestartAt := s1.nextRestartAt[id := s1.now + Delay(FAIL_BACKOFF, n)])
  }

  /** markSlotReady. */
  function MarkReady(cfg: Scheduling, st: State, id: string, o: Oracle): State {
    if id !in st.procs || st.procs[id].readyOK then st
    else
      var sl := st.procs[id];
      var server := if Listens(cfg, st, id, sl, o) then sl.Proc() else sl.server;
      var active := if id in st.lastActiveAt && st.lastActiveAt[id] != 0 then st.lastActiveAt
                    else st.lastActiveAt[id := st.now];
      ClearFail(st, id).(
        procs := st.procs[id := sl.(readyOK := true, server := server, chClosed := true)],
        lastActiveAt := active,
        closes := if sl.chClosed then st.closes else st.closes + multiset{sl.ch})
  }

  /** suspendSlot: stop the process, mark the slot asleep and give it a fresh channel. */
  function Suspend(st: State, id: string): State
    requires id in st.procs
  {
    var sl := st.procs[id];
    ClearFail(st, id).(
      procs := st.procs[id := Slot(0, 0, false, st.nextCh, false, true)],
      nextCh := st.nextCh + 1,
      live := st.live - {sl.Proc()})
  }

  /** Its first half: the flags, before the process is killed. */
  function Drowse(st: State, id: string): State
    requires id in st.procs
  {
    st.(procs := st.procs[id := st.procs[id].(sleeping := true, readyOK := false)])
  }

  /** Its second half, once the process is gone; the flags are not touched again. */
  function Stow(st: State, id: string): State
    requires id in st.procs
  {
    var sl := st.procs[id];
    ClearFail(st, id).(
      procs := st.procs[id := sl.(cmd := 0, server := 0, ch := st.nextCh, chClosed := false)],
      nextCh := st.nextCh + 1,
      live := st.live - {sl.Proc()})
  }

  /** The slot once its wrapper is gone and no server answers on its port. */
  function Stopped(st: State, id: string): State
    requires id in st.procs
  {
    var sl := st.procs[id];
    st.(procs := st.procs[id := sl.(cmd := 0, server := 0, readyOK := false)], live := st.live - {sl.cmd})
  }

  /** The slot once its wrapper is gone and its detached server is taken over. */
  function Adopted(st: State, id: string): State
    requires id in st.procs
  {
    st.(procs := st.procs[id := st.procs[id].(cmd := 0, server := st.procs[id].cmd)])
  }

  /** The background reaper of command proc, once that command has exited. */
  function Reap(cfg: Scheduling, st: State, id: string, proc: nat, o: Oracle): State {
    if id !in st.procs || proc == 0 || st.procs[id].cmd != proc then st
    else if Listens(cfg, st, id, st.procs[id], o) then Adopted(st, id)
    else if st.procs[id].sleeping then Stopped(st, id)
    else RecordFail(Stopped(st, id), id)
  }

  /** Running slots other than id whose listening server freeing id's port would kill. */
  function PortVictims(cfg: Scheduling, st: State, id: string, o: Oracle): set<string> {
    set v | v in st.procs && v != id && At(cfg, v).port == At(cfg, id).port && Runs(st, v)
            && Listens(cfg, st, v, st.procs[v], o)
  }

  /** freeOccupiedPort before id is launched. */
  function FreePort(cfg: Scheduling, st: State, id: string, o: Oracle): State {
    var victims := PortVictims(cfg, st, id, o);
    st.(live := st.live - (set v | v in victims :: st.procs[v].Proc()),
        freed := st.freed + (set v | v in victims :: (id, v)))
  }

  /** A new slot for id, with a fresh channel and, if its command started, a fresh launch. */
  function Place(st: State, id: string, started: bool): State {
    st.(procs := st.procs[id := Slot(if started then st.nextProc else 0, 0, false, st.nextCh, false, false)],
        expected := st.expected + {id},
        nextCh := st.nextCh + 1,
        nextProc := if started then st.nextProc + 1 else st.nextProc,
        live := if started then st.live + {st.nextProc} else st.live)
  }

  /** launchSlot. */
  function Launch(cfg: Scheduling, st: State, id: string, o: Oracle): State {
    if At(cfg, id).command == "" then Place(st, id, false)
    else Place(FreePort(cfg, st, id, o), id, id in o.starts)
  }

  /** The running slots that hold the GPU model id needs. */
  function Owners(cfg: Scheduling, st: State, id: string): set<string> {
    set v | v in st.procs && v != id && Runs(st, v) && At(cfg, v).gpu == At(cfg, id).gpu
  }

  /** acquireGPU stops at the first owner the map iteration meets. */
  ghost function FirstOwner(cfg: Scheduling, st: State, id: string, o: Oracle): (v: string)
    requires Owners(cfg, st, id) != {}
    ensures v in Owners(cfg, st, id)
  {
    if o.pick in Owners(cfg, st, id) then o.pick else var v :| v in Owners(cfg, st, id); v
  }

  /** acquireGPU: evict one owner; None when the owner is resident. */
  ghost function Acquire(cfg: Scheduling, st: State, id: string, o: Oracle): Option<State> {
    if At(cfg, id).gpu == "" || Owners(cfg, st, id) == {} then Some(st)
    else
      var v := FirstOwner(cfg, st, id, o);
      if At(cfg, v).resident then None else Some(Suspend(st, v))
  }

  predicate NeedRestart(cfg: Scheduling, st: State, id: string) {
    && id in st.procs && !Runs(st, id) && At(cfg, id).mode == Background
    && id in st.expected && At(cfg, id).command != ""
    && !BackoffActive(st, id)
  }

  /** The slot of id with a new process: same channel, no longer asleep or ready. */
  function Rerun(st: State, id: string): State
    requires id in st.procs
  {
    st.(procs := st.procs[id := st.procs[id].(cmd := st.nextProc, readyOK := false, sleeping := false)],
        nextProc := st.nextProc + 1,
        live := st.live + {st.nextProc})
  }

  /** The end of restartMember: clear the port, then try to start the command. */
  function Relaunch(cfg: Scheduling, st: State, id: string, o: Oracle): State {
    var s1 := FreePort(cfg, st, id, o);
    if id in o.starts && id in s1.procs then Rerun(s1, id) else s1
  }

  /** restartMember. */
  ghost function Restart(cfg: Scheduling, st: State, id: string, o: Oracle): State {
    if !NeedRestart(cfg, st, id) then st
    else
      match Acquire(cfg, st, id, o)
      case None => st
      case Some(s1) => Relaunch(cfg, s1, id, o)
  }

  // Switching.

  /** stopAll. */
  function StopAll(cfg: Scheduling, st: State): State {
    var kept := map id | id in st.procs && Survives(cfg, id) :: st.procs[id];
    st.(procs := kept,
        expected := kept.Keys,
        codingModel := "",
        live := st.live - (set id | id in st.procs && !Survives(cfg, id) :: st.procs[id].Proc()))
  }

  /** One target of a switch: left alone when running or asleep, launched otherwise. */
  function Target(cfg: Scheduling, st: State, id: string, o: Oracle): State {
    if Runs(st, id) || (id in st.procs && st.procs[id].sleeping) then st.(expected := st.expected + {id})
    else Launch(cfg, st, id, o)
  }

  function Targets(cfg: Scheduling, st: State, ids: seq<string>, o: Oracle): State
    decreases |ids|
  {
    if ids == [] then st else Targets(cfg, Target(cfg, st, ids[0], o), ids[1..], o)
  }

  /** Registering the switch: the coding model, the lease, and what is waited for. */
  function Register(st: State, ids: seq<string>, mode: Mode): State
    requires ids != []
  {
    var all := set id | id in ids;
    st.(expected := st.expected + all,
        codingModel := if mode == Coding then ids[0] else "",
        lastCodingAt := if mode == Coding then st.now else st.lastCodingAt,
        flight := Switching(if mode == Coding then ids[0] else "group", mode, all,
                            set id | id in ids && !(id in st.procs && st.procs[id].sleeping), false))
  }

  /** The part of switchTo before it waits: stop, launch, register. */
  function SwitchTo(cfg: Scheduling, st: State, ids: seq<string>, mode: Mode, o: Oracle): State
    requires ids != []
  {
    Register(Targets(cfg, StopAll(cfg, st), ids, o), ids, mode)
  }

  function GroupSwitch(cfg: Scheduling, st: State, o: Oracle): State {
    if o.group == [] then st else SwitchTo(cfg, st, o.group, Background, o)
  }

  function Priority(m: Mode): nat {
    match m case Coding => 2 case Background => 1 case Unknown(_) => 0
  }

  /** preemptLowerPriority: may the request cancel the registered switch? */
  predicate Preempts(f: Flight, mode: Mode, target: string) {
    && f.Switching?
    && (|| Priority(mode) > Priority(f.mode)
        || (mode == Coding && f.mode == Coding && target != "" && target != f.target))
  }

  function Preempt(st: State, mode: Mode, target: string): State {
    if Preempts(st.flight, mode, target) then st.(preempted := true, flight := st.flight.(cancelled := true)) else st
  }

  function MarkAll(cfg: Scheduling, st: State, ids: seq<string>, o: Oracle): State
    decreases |ids|
  {
    if ids == [] then st else MarkAll(cfg, MarkReady(cfg, st, ids[0], o), ids[1..], o)
  }

  // Requests.

  /** What EnsureModel hands back: a channel to wait on, one nobody will ever close, a
      refusal, or (Waiting) nothing yet because another caller holds switchMu. */
  datatype Reply = Granted(ch: nat) | Never | Refused | Waiting

  function AfterSwitch(st: State, id: string): (State, Reply) {
    (st, if st.flight.Switching? && id in st.flight.wait && id in st.procs then Granted(st.procs[id].ch) else Never)
  }

  /** A coding request once it holds switchMu: it tests again whether the model runs, and
      nothing else. */
  function LockedCoding(cfg: Scheduling, st: State, id: string, o: Oracle): (State, Reply) {
    if Runs(st, id) then (st, Granted(st.procs[id].ch)) else AfterSwitch(SwitchTo(cfg, st, [id], Coding, o), id)
  }

  function EnsureCoding(cfg: Scheduling, st: State, id: string, o: Oracle): (State, Reply) {
    if Runs(st, id) then (st, Granted(st.procs[id].ch))
    else if BackoffActive(st, id) then (st, Refused)
    else if st.flight != Idle then (Preempt(st, Coding, id), Waiting)
    else LockedCoding(cfg, st, id, o)
  }

  function AwaitAlone(st: State, id: string): State {
    st.(flight := Switching(id, Background, {id}, {id}, false))
  }

  /** Launch one model beside the others and register the wait for it. */
  function LaunchAlone(cfg: Scheduling, st: State, id: string, o: Oracle): State {
    AwaitAlone(Launch(cfg, st, id, o), id)
  }

  ghost function EnsureOnDemand(cfg: Scheduling, st: State, id: string, o: Oracle): (State, Reply) {
    if Runs(st, id) then (st, Granted(st.procs[id].ch))
    else if BackoffActive(st, id) then (st, Refused)
    else if st.flight != Idle then (Preempt(st, Background, id), Waiting)
    else LockedOnDemand(cfg, st, id, o)
  }

  /** An on-demand request once it holds switchMu: it too tests again only whether the
      model runs. */
  ghost function LockedOnDemand(cfg: Scheduling, st: State, id: string, o: Oracle): (State, Reply) {
    if Runs(st, id) then (st, Granted(st.procs[id].ch)) else AcquireAndLaunch(cfg, st, id, o)
  }

  ghost function AcquireAndLaunch(cfg: Scheduling, st: State, id: string, o: Oracle): (State, Reply) {
    match Acquire(cfg, st, id, o)
    case None => (st, Refused)
    case Some(s1) => AfterSwitch(LaunchAlone(cfg, s1, id, o), id)
  }

  /** A startup-set member that has its slot: wait for it, restarting it if it is down. */
  ghost function EnsureMember(cfg: Scheduling, st: State, id: string, o: Oracle): (State, Reply)
    requires id in st.procs
  {
    if Runs(st, id) then (st, Granted(st.procs[id].ch))
    else if st.flight != Idle then (st, Waiting)
    else (Restart(cfg, st, id, o), Granted(st.procs[id].ch))
  }

  /** A member without one, or not resident while a coding model is registered: switch
      the whole group in, unless the coding lease is active. */
  function EnsureGroup(cfg: Scheduling, st: State, id: string, o: Oracle): (State, Reply) {
    if st.codingModel != "" && LeaseActive(cfg, st) then (st, Never)
    else if st.flight != Idle then (st, Waiting)
    else LockedGroup(cfg, st, id, o)
  }

  /** A request that switches the startup set in, once it holds switchMu. */
  function LockedGroup(cfg: Scheduling, st: State, id: string, o: Oracle): (State, Reply) {
    if st.codingModel == "" && Runs(st, id) then (st, Granted(st.procs[id].ch))
    else AfterSwitch(GroupSwitch(cfg, st, o), id)
  }

  ghost function EnsureBackground(cfg: Scheduling, st: State, id: string, o: Oracle): (State, Reply) {
    if !InGroup(cfg, id) then EnsureOnDemand(cfg, st, id, o)
    else if id in st.procs && (At(cfg, id).resident || st.codingModel == "") then EnsureMember(cfg, st, id, o)
    else EnsureGroup(cfg, st, id, o)
  }

  /** TouchCoding or TouchModel, as the proxy does before it asks the scheduler. */
  function TouchFor(st: State, id: string, mode: Mode): State {
    match mode
    case Coding => st.(lastCodingAt := st.now)
    case Background => st.(lastActiveAt := st.lastActiveAt[id := st.now])
    case Unknown(_) => st
  }

  /** The proxy's guard, then EnsureModel: a model that would have to leave its GPU to a
      coding model is refused while one runs. */
  ghost function Guarded(cfg: Scheduling, st: State, id: string, o: Oracle): (State, Reply) {
    var e := At(cfg, id);
    if e.mode == Background && !e.resident && e.gpu != "" && CodingRunning(cfg, st) then (st, Refused)
    else if e.mode == Coding then EnsureCoding(cfg, st, id, o)
    else EnsureBackground(cfg, st, id, o)
  }

  /** A request for model id, as one step. */
  ghost function Request(cfg: Scheduling, st: State, id: string, o: Oracle): (State, Reply) {
    match Entry(cfg, id)
    case None => (st, Refused)
    case Some(e) =>
      if id == "" || id == PROXY_MODEL_ID then (st, Refused)
      else Guarded(cfg, TouchFor(st, id, e.mode), id, o)
  }

  // The probe loop.

  predicate IdleForSleep(cfg: Scheduling, st: State, id: string) {
    && !(id in st.inflight && st.inflight[id] > 0)
    && id in st.lastActiveAt && st.lastActiveAt[id] != 0
    && st.now - st.lastActiveAt[id] > At(cfg, id).sleepTimeout
  }

  /** Will reconcile put this ready slot to sleep? */
  predicate SleepsNow(cfg: Scheduling, st: State, id: string) {
    && Runs(st, id) && st.procs[id].readyOK && !st.procs[id].sleeping
    && At(cfg, id).mode == Background && At(cfg, id).sleepTimeout > 0 && IdleForSleep(cfg, st, id)
  }

  /** Has this slot's wrapper gone without a server to adopt? */
  predicate Gone(cfg: Scheduling, st: State, id: string, o: Oracle)
    requires id in st.procs
  {
    st.procs[id].cmd == 0 && !Listens(cfg, st, id, st.procs[id], o)
  }

  /** The slot after a port lookup found nothing. */
  function Forgotten(st: State, id: string): State
    requires id in st.procs
  {
    st.(procs := st.procs[id := st.procs[id].(server := 0)])
  }

  /** A slot whose process is gone: background members are restarted, coding ones are not. */
  ghost function VisitGone(cfg: Scheduling, st: State, id: string, o: Oracle): State
    requires id in st.procs
  {
    if At(cfg, id).mode == Background then Restart(cfg, Forgotten(st, id), id, o) else Forgotten(st, id)
  }

  /** One iteration of reconcile's loop over the slots. */
  ghost function Visit(cfg: Scheduling, st: State, id: string, o: Oracle): State {
    if id !in st.procs || st.procs[id].sleeping then st
    else if st.procs[id].readyOK then
      if SleepsNow(cfg, st, id) then Suspend(st, id) else st
    else if At(cfg, id).readinessURL == "" then st
    else if Gone(cfg, st, id, o) then VisitGone(cfg, st, id, o)
    else if id in o.probes then MarkReady(cfg, st, id, o)
    else st
  }

  /** Does this iteration take switchMu? */
  predicate VisitLocks(cfg: Scheduling, st: State, id: string, o: Oracle) {
    && id in st.procs && !st.procs[id].sleeping
    && if st.procs[id].readyOK then SleepsNow(cfg, st, id)
       else At(cfg, id).readinessURL != "" && At(cfg, id).mode == Background && Gone(cfg, st, id, o)
  }

  /** reconcile's first test: the coding process exited and its channel never closed. */
  predicate DeadNeverReady(st: State) {
    && st.codingModel != "" && st.codingModel in st.procs
    && !Runs(st, st.codingModel) && !st.procs[st.codingModel].chClosed
  }

  function Recover(cfg: Scheduling, st: State, o: Oracle): State {
    if o.group == [] then st.(codingModel := "") else GroupSwitch(cfg, st, o)
  }

  /** The lease branch of Loop. */
  predicate LeaseExpired(cfg: Scheduling, st: State) {
    && st.codingModel != ""
    && cfg.lease > 0 && st.lastCodingAt != 0 && st.now - st.lastCodingAt >= cfg.lease
    && !(st.flight.Switching? && st.flight.mode == Coding
         && !(st.codingModel in st.procs && st.procs[st.codingModel].readyOK))
  }

  // Steps and runs.

  datatype Event =
    | Start(o: Oracle)
    | Ask(id: string, o: Oracle)
    | Ready(id: string, o: Oracle)
    | Finish(oks: seq<string>, o: Oracle)
    | Reaped(id: string, proc: nat, o: Oracle)
    | Visited(id: string, o: Oracle)
    | Recovered(o: Oracle)
    | LeaseTick(o: Oracle)
    | Exited(proc: nat)
    | Touched
    | Entered(id: string)
    | Left(id: string)
    | Tick(d: nat)

  ghost predicate Enabled(cfg: Scheduling, st: State, ev: Event) {
    match ev
    case Start(o) => !st.started && st.flight == Idle && IsGroup(cfg, o.group)
    case Ask(id, o) => IsGroup(cfg, o.group)
    case Ready(id, o) => st.flight.Switching? && id in st.flight.wait
    case Finish(oks, o) => st.flight.Switching? && forall id :: id in oks ==> id in st.flight.wait
    case Visited(id, o) => VisitLocks(cfg, st, id, o) ==> st.flight == Idle
    case Recovered(o) => DeadNeverReady(st) && st.flight == Idle && IsGroup(cfg, o.group)
    case LeaseTick(o) => LeaseExpired(cfg, st) && st.flight == Idle && IsGroup(cfg, o.group)
    case _ => true
  }

  ghost function Apply(cfg: Scheduling, st: State, ev: Event): State {
    match ev
    case Start(o) => GroupSwitch(cfg, st, o).(started := true)
    case Ask(id, o) => Request(cfg, st, id, o).0
    case Ready(id, o) => MarkReady(cfg, st, id, o)
    case Finish(oks, o) => MarkAll(cfg, st, oks, o).(flight := Idle)
    case Reaped(id, proc, o) => Reap(cfg, st, id, proc, o)
    case Visited(id, o) => Visit(cfg, st, id, o)
    case Recovered(o) => Recover(cfg, st, o)
    case LeaseTick(o) => GroupSwitch(cfg, st, o)
    case Exited(p) => st.(live := st.live - {p})
    case Touched => st.(lastCodingAt := st.now)
    case Entered(id) => st.(inflight := st.inflight[id := (if id in st.inflight then st.inflight[id] else 0) + 1])
    case Left(id) =>
      if id in st.inflight && st.inflight[id] > 0 then st.(inflight := st.inflight[id := st.inflight[id] - 1]) else st
    case Tick(d) => st.(now := st.now + d)
  }

  /** evs can happen one after the other from st. */
  ghost predicate IsRun(cfg: Scheduling, st: State, evs: seq<Event>)
    decreases |evs|
  {
    evs == [] || (Enabled(cfg, st, evs[0]) && IsRun(cfg, Apply(cfg, st, evs[0]), evs[1..]))
  }

  ghost function Exec(cfg: Scheduling, st: State, evs: seq<Event>): State
    decreases |evs|
  {
    if evs == [] then st else Exec(cfg, Apply(cfg, st, evs[0]), evs[1..])
  }

  /** Every request names its id without edge white space (Entry also accepts one with). */
  ghost predicate Canonical(evs: seq<Event>)
    decreases |evs|
  {
    evs == [] || ((evs[0].Ask? ==> TrimSpace(evs[0].id) == evs[0].id) && Canonical(evs[1..]))
  }
}
