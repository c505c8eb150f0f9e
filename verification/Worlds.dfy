/** The scheduler with its waits opened up.  In Machine every step is atomic; here a caller
    that finds switchMu taken waits with what it decided before, suspendSlot is cut in two
    around the kill, and a probe may be acted on late. */
module Worlds {
  import opened Text
  import opened Config
  import opened Machine
  import opened Invariants
  import opened Steps
  import opened Moves
  import opened Safety

  /** What a caller does once it holds switchMu. */
  datatype Path = ToCoding | ToOnDemand | ToGroup | ToRestart | ToNap

  /** A caller waiting for switchMu. */
  datatype Ticket = Ticket(id: string, path: Path)

  /** What is left to do after a kill. */
  datatype Rest = Done | ThenLaunch(id: string) | ThenRelaunch(id: string)

  datatype Halt = NoHalt | Killing(v: string, rest: Rest)

  /** The machine, the kill switchMu is held for, and the callers waiting for switchMu. */
  datatype World = World(st: State, halt: Halt, queue: multiset<Ticket>)

  const START := World(INIT, NoHalt, multiset{})

  // What happens before switchMu.

  /** The proxy's guard. */
  predicate TurnedAway(cfg: Scheduling, st: State, id: string) {
    At(cfg, id).mode == Background && !At(cfg, id).resident && At(cfg, id).gpu != "" && CodingRunning(cfg, st)
  }

  /** What a request comes to wait for; None: it is answered at once. */
  function Waits(cfg: Scheduling, st: State, id: string): Option<Path> {
    if TurnedAway(cfg, st, id) then None
    else if At(cfg, id).mode == Coding then
      if Runs(st, id) || BackoffActive(st, id) then None else Some(ToCoding)
    else if !InGroup(cfg, id) then
      if Runs(st, id) || BackoffActive(st, id) then None else Some(ToOnDemand)
    else if id in st.procs && (At(cfg, id).resident || st.codingModel == "") then
      if Runs(st, id) then None else Some(ToRestart)
    else if st.codingModel != "" && LeaseActive(cfg, st) then None
    else Some(ToGroup)
  }

  predicate Served(cfg: Scheduling, id: string) {
    Known(cfg, id) && id != "" && id != PROXY_MODEL_ID
  }

  function TouchedBy(cfg: Scheduling, st: State, id: string): State {
    if Served(cfg, id) then TouchFor(st, id, At(cfg, id).mode) else st
  }

  function TicketFor(cfg: Scheduling, st: State, id: string): Option<Path> {
    if Served(cfg, id) then Waits(cfg, TouchedBy(cfg, st, id), id) else None
  }

  /** The state once a request for id was answered or waits. */
  function Knocked(cfg: Scheduling, st: State, id: string): State {
    match TicketFor(cfg, st, id)
    case Some(ToCoding) => Preempt(TouchedBy(cfg, st, id), Coding, id)
    case Some(ToOnDemand) => Preempt(TouchedBy(cfg, st, id), Background, id)
    case _ => TouchedBy(cfg, st, id)
  }

  /** The probe loop finds a member idle for too long. */
  predicate WantsNap(cfg: Scheduling, st: State, id: string) {
    && id in st.procs && st.procs[id].readyOK && !st.procs[id].sleeping
    && At(cfg, id).mode == Background && At(cfg, id).sleepTimeout > 0 && IdleForSleep(cfg, st, id)
  }

  /** Or one whose process is gone. */
  predicate WantsRestart(cfg: Scheduling, st: State, id: string, o: Oracle) {
    && id in st.procs && !st.procs[id].readyOK && !st.procs[id].sleeping
    && At(cfg, id).mode == Background && At(cfg, id).readinessURL != "" && Gone(cfg, st, id, o)
  }

  // What happens under it.

  /** sleepMember tests again all but the idle time. */
  predicate NapsNow(st: State, id: string) {
    && Runs(st, id) && st.procs[id].readyOK && !st.procs[id].sleeping
    && !(id in st.inflight && st.inflight[id] > 0)
  }

  ghost function Serving(cfg: Scheduling, st: State, t: Ticket, o: Oracle): State {
    match t.path
    case ToCoding => LockedCoding(cfg, st, t.id, o).0
    case ToOnDemand => LockedOnDemand(cfg, st, t.id, o).0
    case ToGroup => LockedGroup(cfg, st, t.id, o).0
    case ToRestart => Restart(cfg, st, t.id, o)
    case ToNap => if NapsNow(st, t.id) then Suspend(st, t.id) else st
  }

  /** acquireGPU evicts. */
  ghost predicate Evicts(cfg: Scheduling, st: State, id: string, o: Oracle) {
    && At(cfg, id).gpu != "" && Owners(cfg, st, id) != {}
    && !At(cfg, FirstOwner(cfg, st, id, o)).resident
  }

  /** The kill on the way, if there is one. */
  ghost function KillOf(cfg: Scheduling, st: State, t: Ticket, o: Oracle): Halt {
    match t.path
    case ToOnDemand =>
      if !Runs(st, t.id) && Evicts(cfg, st, t.id, o) then Killing(FirstOwner(cfg, st, t.id, o), ThenLaunch(t.id)) else NoHalt
    case ToRestart =>
      if NeedRestart(cfg, st, t.id) && Evicts(cfg, st, t.id, o) then Killing(FirstOwner(cfg, st, t.id, o), ThenRelaunch(t.id))
      else NoHalt
    case ToNap => if NapsNow(st, t.id) then Killing(t.id, Done) else NoHalt
    case _ => NoHalt
  }

  function Resumed(cfg: Scheduling, st: State, rest: Rest, o: Oracle): State {
    match rest
    case Done => st
    case ThenLaunch(id) => LaunchAlone(cfg, st, id, o)
    case ThenRelaunch(id) => Relaunch(cfg, st, id, o)
  }

  // The atomic machine is the one in which nobody waits.

  lemma GuardedBusy(cfg: Scheduling, st: State, id: string, o: Oracle)
    requires st.flight != Idle
    ensures Guarded(cfg, st, id, o).0 ==
      match Waits(cfg, st, id)
      case Some(ToCoding) => Preempt(st, Coding, id)
      case Some(ToOnDemand) => Preempt(st, Background, id)
      case _ => st
    ensures Guarded(cfg, st, id, o).1 == Waiting <==> Waits(cfg, st, id).Some?
  {
    hide CodingRunning, LeaseActive, Restart, GroupSwitch, SwitchTo;
  }

  lemma GuardedIdle(cfg: Scheduling, st: State, id: string, o: Oracle)
    requires st.flight == Idle
    ensures Guarded(cfg, st, id, o).0 ==
      match Waits(cfg, st, id)
      case None => st
      case Some(path) => Serving(cfg, st, Ticket(id, path), o)
  {
    hide CodingRunning, LeaseActive, Restart, GroupSwitch, SwitchTo, AcquireAndLaunch;
  }

  /** While a switch is under way a request does what it does before switchMu. */
  lemma KnockIsRequest(cfg: Scheduling, st: State, id: string, o: Oracle)
    requires st.flight != Idle
    ensures Request(cfg, st, id, o).0 == Knocked(cfg, st, id)
    ensures Request(cfg, st, id, o).1 == Waiting <==> TicketFor(cfg, st, id).Some?
  {
    hide Guarded, Waits, Preempt;
    if Served(cfg, id) {
      RequestIsGuarded(cfg, st, id, o);
      GuardedBusy(cfg, TouchedBy(cfg, st, id), id, o);
    }
  }

  /** Otherwise it does that and at once what it does under switchMu. */
  lemma KnockThenServe(cfg: Scheduling, st: State, id: string, o: Oracle)
    requires st.flight == Idle
    ensures Request(cfg, st, id, o).0 ==
      match TicketFor(cfg, st, id)
      case None => Knocked(cfg, st, id)
      case Some(path) => Serving(cfg, Knocked(cfg, st, id), Ticket(id, path), o)
  {
    hide Guarded, Waits, Serving;
    if Served(cfg, id) {
      RequestIsGuarded(cfg, st, id, o);
      GuardedIdle(cfg, TouchedBy(cfg, st, id), id, o);
    }
  }

  /** So does a visit of the probe loop. */
  lemma SpotThenServe(cfg: Scheduling, st: State, id: string, o: Oracle)
    ensures WantsNap(cfg, st, id) ==> Visit(cfg, st, id, o) == Serving(cfg, st, Ticket(id, ToNap), o)
    ensures WantsRestart(cfg, st, id, o) ==> Visit(cfg, st, id, o) == Serving(cfg, Forgotten(st, id), Ticket(id, ToRestart), o)
  {
    hide Restart;
  }

  /** A kill nothing comes between leaves what the whole step leaves. */
  lemma KillThenResume(cfg: Scheduling, st: State, t: Ticket, o: Oracle)
    requires KillOf(cfg, st, t, o).Killing?
    ensures var h := KillOf(cfg, st, t, o);
      && h.v in st.procs
      && Resumed(cfg, Stow(Drowse(st, h.v), h.v), h.rest, o) == Serving(cfg, st, t, o)
  {
    hide Relaunch, LaunchAlone;
    HalvesSuspend(st, KillOf(cfg, st, t, o).v);
  }

  // Worlds and what happens in them.

  datatype Act =
    | Plain(ev: Event)
    | Late(id: string, o: Oracle)
    | Knock(id: string)
    | Spot(id: string, o: Oracle)
    | Serve(t: Ticket, o: Oracle)
    | Break(t: Ticket, o: Oracle)
    | Shut(o: Oracle)

  /** The events that go on during a kill: those that do not take switchMu. */
  predicate LockFree(cfg: Scheduling, st: State, ev: Event) {
    match ev
    case Reaped(id, proc, o) => true
    case Visited(id, o) => !VisitLocks(cfg, st, id, o)
    case Exited(p) => true
    case Touched => true
    case Entered(id) => true
    case Left(id) => true
    case Tick(d) => true
    case _ => false
  }

  /** Late: a probe that succeeded some time ago is acted on now.  Knock, Spot: a request
      or a visit does what it does before switchMu.  Serve: a waiting caller has its turn.
      Break: so it has, and comes to kill a process; Shut: the kill is over. */
  ghost predicate Can(cfg: Scheduling, w: World, a: Act) {
    match a
    case Plain(ev) => Enabled(cfg, w.st, ev) && (w.halt.Killing? ==> LockFree(cfg, w.st, ev))
    case Late(id, o) => true
    case Knock(id) => true
    case Spot(id, o) => WantsNap(cfg, w.st, id) || WantsRestart(cfg, w.st, id, o)
    case Serve(t, o) => t in w.queue && w.halt == NoHalt && w.st.flight == Idle && IsGroup(cfg, o.group)
    case Break(t, o) => t in w.queue && w.halt == NoHalt && w.st.flight == Idle && KillOf(cfg, w.st, t, o).Killing?
    case Shut(o) => w.halt.Killing?
  }

  ghost function Next(cfg: Scheduling, w: World, a: Act): World
    requires Can(cfg, w, a)
  {
    match a
    case Plain(ev) => w.(st := Apply(cfg, w.st, ev))
    case Late(id, o) => w.(st := MarkReady(cfg, w.st, id, o))
    case Knock(id) =>
      var queue := match TicketFor(cfg, w.st, id)
                   case None => w.queue
                   case Some(path) => w.queue + multiset{Ticket(id, path)};
      w.(st := Knocked(cfg, w.st, id), queue := queue)
    case Spot(id, o) =>
      if WantsNap(cfg, w.st, id) then w.(queue := w.queue + multiset{Ticket(id, ToNap)})
      else w.(st := Forgotten(w.st, id), queue := w.queue + multiset{Ticket(id, ToRestart)})
    case Serve(t, o) => w.(st := Serving(cfg, w.st, t, o), queue := w.queue - multiset{t})
    case Break(t, o) =>
      KillThenResume(cfg, w.st, t, o);
      var h := KillOf(cfg, w.st, t, o);
      World(Drowse(w.st, h.v), h, w.queue - multiset{t})
    case Shut(o) => World(Resumed(cfg, Settled(w), w.halt.rest, o), NoHalt, w.queue)
  }

  /** The state at the end of the kill under way, as far as it is settled now. */
  function Settled(w: World): State {
    if w.halt.Killing? && w.halt.v in w.st.procs then Stow(w.st, w.halt.v) else w.st
  }

  ghost predicate CanAll(cfg: Scheduling, w: World, acts: seq<Act>)
    decreases |acts|
  {
    acts == [] || (Can(cfg, w, acts[0]) && CanAll(cfg, Next(cfg, w, acts[0]), acts[1..]))
  }

  /** All the scheduler's promises hold, once the kill under way is over. */
  ghost predicate Sound(cfg: Scheduling, w: World) {
    Safe(cfg, Settled(w))
  }

  ghost predicate AllSound(cfg: Scheduling, w: World, acts: seq<Act>)
    requires CanAll(cfg, w, acts)
    decreases |acts|
  {
    Sound(cfg, w) && (acts != [] ==> AllSound(cfg, Next(cfg, w, acts[0]), acts[1..]))
  }

  /** Somebody who cannot be evicted holds the card id needs. */
  predicate Refuses(cfg: Scheduling, st: State, id: string) {
    At(cfg, id).gpu != "" && exists v :: v in Owners(cfg, st, id) && At(cfg, v).resident
  }

  /** No coding process runs, or id may run beside one. */
  predicate GuardHolds(cfg: Scheduling, st: State, id: string) {
    CodingRunning(cfg, st) ==> Survives(cfg, id)
  }

  /** Launching id starts nothing inside its backoff window. */
  predicate InTime(cfg: Scheduling, st: State, id: string, o: Oracle) {
    Starts(cfg, id, o) ==> !BackoffActive(st, id)
  }

  /** What the code does not test: that a slot marked late is awake, that the guard still
      holds when a waiting on-demand request has its turn, and the backoff. */
  predicate Clean(cfg: Scheduling, w: World, a: Act) {
    match a
    case Late(id, o) => !Asleep(w.st, id)
    case Serve(t, o) =>
      (match t.path
       case ToCoding => Runs(w.st, t.id) || InTime(cfg, w.st, t.id, o)
       case ToOnDemand =>
         Runs(w.st, t.id) || Refuses(cfg, w.st, t.id) || (GuardHolds(cfg, w.st, t.id) && InTime(cfg, w.st, t.id, o))
       case _ => true)
    case Break(t, o) => t.path == ToOnDemand ==> GuardHolds(cfg, w.st, t.id)
    case Shut(o) => w.halt.Killing? && w.halt.rest.ThenLaunch? ==> InTime(cfg, Settled(w), w.halt.rest.id, o)
    case _ => true
  }

  ghost predicate AllClean(cfg: Scheduling, w: World, acts: seq<Act>)
    requires CanAll(cfg, w, acts)
    decreases |acts|
  {
    acts != [] ==> Clean(cfg, w, acts[0]) && AllClean(cfg, Next(cfg, w, acts[0]), acts[1..])
  }

  // What holds besides soundness.

  ghost predicate TicketOK(cfg: Scheduling, t: Ticket) {
    && Known(cfg, t.id)
    && match t.path
       case ToCoding => t.id != "" && At(cfg, t.id).mode == Coding
       case ToOnDemand => At(cfg, t.id).mode == Background && !InGroup(cfg, t.id)
       case ToGroup => InGroup(cfg, t.id)
       case _ => At(cfg, t.id).mode == Background
  }

  /** id, a background model, may be launched in s beside everything that runs. */
  ghost predicate MayFollow(cfg: Scheduling, s: State, id: string) {
    && Known(cfg, id) && At(cfg, id).mode == Background && !Runs(s, id)
    && CardFree(cfg, s, id) && GuardHolds(cfg, s, id)
  }

  ghost predicate RestOK(cfg: Scheduling, s: State, rest: Rest) {
    match rest
    case Done => true
    case ThenLaunch(id) => MayFollow(cfg, s, id) && !InGroup(cfg, id)
    case ThenRelaunch(id) =>
      MayFollow(cfg, s, id) && id in s.procs && At(cfg, id).command != "" && !BackoffActive(s, id)
  }

  /** The slot being stopped: marked, its launch and its channel its own, still under
      switchMu; until the kill is over it keeps that channel. */
  ghost predicate VictimOK(cfg: Scheduling, st: State, v: string) {
    && v in st.procs && st.procs[v].sleeping && !st.procs[v].readyOK && At(cfg, v).mode != Coding
    && 0 !in st.live && st.flight == Idle
    && (forall x | x in st.procs && x != v && st.procs[x].Proc() != 0 :: st.procs[x].Proc() != st.procs[v].Proc())
    && (forall x | x in st.procs && x != v :: st.procs[x].ch != st.procs[v].ch)
    && st.procs[v].chClosed == (st.procs[v].ch in st.closes)
  }

  ghost predicate WorldOK(cfg: Scheduling, w: World) {
    && (forall t :: t in w.queue ==> TicketOK(cfg, t))
    && (w.halt.Killing? ==> VictimOK(cfg, w.st, w.halt.v) && RestOK(cfg, Settled(w), w.halt.rest))
  }
}
