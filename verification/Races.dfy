/** Which of the scheduler's promises survive late marks, kills that take their time and
    callers that wait. */
module Races {
  import opened Text
  import opened Config
  import opened Backoff
  import opened Machine
  import opened Invariants
  import opened Steps
  import opened Moves
  import opened Safety
  import opened Theorems
  import opened Requests
  import opened Worlds

  // Events during a kill commute with the end of the kill.

  lemma UpdatesCommute<K, V>(m: map<K, V>, a: K, x: V, b: K, y: V)
    requires a != b
    ensures m[a := x][b := y] == m[b := y][a := x]
  {
  }

  lemma RemovalsCommute<K, V>(m: map<K, V>, a: K, b: K)
    ensures m - {a} - {b} == m - {b} - {a}
  {
  }

  lemma UpdateThenRemove<K, V>(m: map<K, V>, a: K, x: V, b: K)
    requires a != b
    ensures m[a := x] - {b} == (m - {b})[a := x]
  {
  }

  /** Other slots' servers are other processes. */
  lemma ListensOn(cfg: Scheduling, st: State, v: string, id: string, o: Oracle)
    requires VictimOK(cfg, st, v) && id in st.procs && id != v
    ensures Listens(cfg, Stow(st, v), id, st.procs[id], o) <==> Listens(cfg, st, id, st.procs[id], o)
  {
  }

  lemma MarkCommutes(cfg: Scheduling, st: State, v: string, id: string, o: Oracle)
    requires VictimOK(cfg, st, v) && id != v
    ensures VictimOK(cfg, MarkReady(cfg, st, id, o), v)
    ensures Stow(MarkReady(cfg, st, id, o), v) == MarkReady(cfg, Stow(st, v), id, o)
  {
    if id in st.procs && !st.procs[id].readyOK {
      hide Listens;
      ListensOn(cfg, st, v, id, o);
      UpdatesCommute(st.procs, id, MarkReady(cfg, st, id, o).procs[id], v, Stow(st, v).procs[v]);
      RemovalsCommute(st.failCount, id, v);
      RemovalsCommute(st.nextRestartAt, id, v);
      MarkReadyProcs(cfg, st, id, o);
    }
  }

  lemma FailCommutes(st: State, v: string, id: string)
    requires v in st.procs && id != v
    ensures v in RecordFail(st, id).procs && Stow(RecordFail(st, id), v) == RecordFail(Stow(st, v), id)
  {
    var st' := RecordFail(st, id);
    UpdateThenRemove(st.failCount, id, st'.failCount[id], v);
    FailShape(st, id);
    FailShape(Stow(st, v), id);
    hide RecordFail;
    if id in st.failCount && st.failCount[id] >= 1 {
      UpdateThenRemove(st.nextRestartAt, id, st'.nextRestartAt[id], v);
    }
  }

  lemma FailShape(st: State, id: string)
    ensures var n := (if id in st.failCount then st.failCount[id] else 0) + 1;
      RecordFail(st, id) == st.(failCount := st.failCount[id := n],
        nextRestartAt := if n <= 1 then st.nextRestartAt else st.nextRestartAt[id := st.now + Delay(FAIL_BACKOFF, n)])
  {
  }

  lemma StopCommutes(cfg: Scheduling, st: State, v: string, id: string)
    requires VictimOK(cfg, st, v) && id in st.procs && id != v
    ensures VictimOK(cfg, Stopped(st, id), v) && Stow(Stopped(st, id), v) == Stopped(Stow(st, v), id)
  {
    UpdatesCommute(st.procs, id, Stopped(st, id).procs[id], v, Stow(st, v).procs[v]);
    assert st.live - {st.procs[id].cmd} - {st.procs[v].Proc()} == st.live - {st.procs[v].Proc()} - {st.procs[id].cmd};
  }

  lemma AdoptCommutes(cfg: Scheduling, st: State, v: string, id: string)
    requires VictimOK(cfg, st, v) && id in st.procs && id != v && st.procs[id].cmd != 0
    ensures VictimOK(cfg, Adopted(st, id), v) && Stow(Adopted(st, id), v) == Adopted(Stow(st, v), id)
  {
    UpdatesCommute(st.procs, id, Adopted(st, id).procs[id], v, Stow(st, v).procs[v]);
  }

  lemma UpdateTwice<K, V>(m: map<K, V>, a: K, x: V, y: V)
    ensures m[a := x][a := y] == m[a := y]
  {
  }

  /** The reaper of the process being killed: the slot forgets it either way. */
  lemma OwnStop(cfg: Scheduling, st: State, v: string)
    requires VictimOK(cfg, st, v) && st.procs[v].cmd != 0
    ensures VictimOK(cfg, Stopped(st, v), v) && Stow(Stopped(st, v), v) == Stow(st, v)
  {
    UpdateTwice(st.procs, v, Stopped(st, v).procs[v], Stow(st, v).procs[v]);
    assert st.live - {st.procs[v].cmd} - {0} == st.live - {st.procs[v].cmd};
  }

  lemma OwnAdopt(cfg: Scheduling, st: State, v: string)
    requires VictimOK(cfg, st, v) && st.procs[v].cmd != 0
    ensures VictimOK(cfg, Adopted(st, v), v) && Stow(Adopted(st, v), v) == Stow(st, v)
  {
    UpdateTwice(st.procs, v, Adopted(st, v).procs[v], Stow(st, v).procs[v]);
  }

  lemma OwnReap(cfg: Scheduling, st: State, v: string, proc: nat, o: Oracle)
    requires VictimOK(cfg, st, v)
    ensures var st' := Reap(cfg, st, v, proc, o); VictimOK(cfg, st', v) && Stow(st', v) == Stow(st, v)
    ensures Reap(cfg, Stow(st, v), v, proc, o) == Stow(st, v)
  {
    if proc != 0 && st.procs[v].cmd == proc {
      hide Listens, Stopped, Adopted;
      OwnStop(cfg, st, v);
      OwnAdopt(cfg, st, v);
    }
  }

  lemma ReapCommutes(cfg: Scheduling, st: State, v: string, id: string, proc: nat, o: Oracle)
    requires VictimOK(cfg, st, v)
    ensures VictimOK(cfg, Reap(cfg, st, id, proc, o), v)
    ensures Stow(Reap(cfg, st, id, proc, o), v) == Reap(cfg, Stow(st, v), id, proc, o)
  {
    if id == v {
      OwnReap(cfg, st, v, proc, o);
    } else if id in st.procs && proc != 0 && st.procs[id].cmd == proc {
      hide Listens, Stow, Stopped, Adopted, RecordFail, VictimOK;
      StowOther(st, v, id);
      ListensOn(cfg, st, v, id, o);
      AdoptCommutes(cfg, st, v, id);
      StopCommutes(cfg, st, v, id);
      FailCommutes(Stopped(st, id), v, id);
      RecordFailVictim(cfg, Stopped(st, id), v, id);
    } else {
      StowOther(st, v, id);
    }
  }

  lemma StowOther(st: State, v: string, id: string)
    requires v in st.procs && id != v
    ensures id in Stow(st, v).procs <==> id in st.procs
    ensures id in st.procs ==> Stow(st, v).procs[id] == st.procs[id]
  {
  }

  lemma RecordFailVictim(cfg: Scheduling, st: State, v: string, id: string)
    requires VictimOK(cfg, st, v)
    ensures VictimOK(cfg, RecordFail(st, id), v)
  {
  }

  lemma ForgetCommutes(cfg: Scheduling, st: State, v: string, id: string)
    requires VictimOK(cfg, st, v) && id in st.procs && id != v
    ensures VictimOK(cfg, Forgotten(st, id), v)
    ensures Stow(Forgotten(st, id), v) == Forgotten(Stow(st, v), id)
  {
    UpdatesCommute(st.procs, id, Forgotten(st, id).procs[id], v, Stow(st, v).procs[v]);
  }

  lemma ExitCommutes(cfg: Scheduling, st: State, v: string, p: nat)
    requires VictimOK(cfg, st, v)
    ensures var ev := Exited(p); VictimOK(cfg, Apply(cfg, st, ev), v) && Stow(Apply(cfg, st, ev), v) == Apply(cfg, Stow(st, v), ev)
  {
    assert st.live - {p} - {st.procs[v].Proc()} == st.live - {st.procs[v].Proc()} - {p};
  }

  lemma VisitCommutes(cfg: Scheduling, st: State, v: string, id: string, o: Oracle)
    requires VictimOK(cfg, st, v) && !VisitLocks(cfg, st, id, o)
    ensures VictimOK(cfg, Visit(cfg, st, id, o), v)
    ensures Stow(Visit(cfg, st, id, o), v) == Visit(cfg, Stow(st, v), id, o)
    ensures !VisitLocks(cfg, Stow(st, v), id, o)
  {
    if id in st.procs && id != v {
      hide MarkReady, Listens, Restart, IdleForSleep;
      StowOther(st, v, id);
      ListensOn(cfg, st, v, id, o);
      MarkCommutes(cfg, st, v, id, o);
      ForgetCommutes(cfg, st, v, id);
      IdleOn(cfg, st, v, id);
    }
  }

  lemma IdleOn(cfg: Scheduling, st: State, v: string, id: string)
    requires VictimOK(cfg, st, v) && id in st.procs && id != v
    ensures SleepsNow(cfg, Stow(st, v), id) <==> SleepsNow(cfg, st, id)
  {
  }

  /** Steps on the lease, the idle clocks, the counters or the time. */
  lemma TablesCommute(cfg: Scheduling, st: State, v: string, st': State)
    requires VictimOK(cfg, st, v)
    requires st' == st.(lastCodingAt := st'.lastCodingAt, lastActiveAt := st'.lastActiveAt, inflight := st'.inflight, now := st'.now)
    ensures VictimOK(cfg, st', v)
    ensures Stow(st', v) ==
      Stow(st, v).(lastCodingAt := st'.lastCodingAt, lastActiveAt := st'.lastActiveAt, inflight := st'.inflight, now := st'.now)
  {
  }

  lemma StowTables(st: State, v: string)
    requires v in st.procs
    ensures var s := Stow(st, v);
      s.lastCodingAt == st.lastCodingAt && s.lastActiveAt == st.lastActiveAt && s.inflight == st.inflight && s.now == st.now
  {
  }

  /** A kill and what goes on during it leave what they leave one after the other. */
  lemma EventCommutes(cfg: Scheduling, st: State, v: string, ev: Event)
    requires VictimOK(cfg, st, v) && LockFree(cfg, st, ev)
    ensures VictimOK(cfg, Apply(cfg, st, ev), v)
    ensures Stow(Apply(cfg, st, ev), v) == Apply(cfg, Stow(st, v), ev)
    ensures LockFree(cfg, Stow(st, v), ev) && Enabled(cfg, Stow(st, v), ev)
  {
    hide VictimOK, Stow, Reap, Visit, VisitLocks;
    VictimHasSlot(cfg, st, v);
    match ev
    case Reaped(id, proc, o) => ReapCommutes(cfg, st, v, id, proc, o);
    case Visited(id, o) => VisitCommutes(cfg, st, v, id, o);
    case Exited(p) => ExitCommutes(cfg, st, v, p);
    case _ =>
      TablesCommute(cfg, st, v, Apply(cfg, st, ev));
      StowTables(st, v);
  }

  // Nothing starts during a kill, so what was to follow it still may.

  lemma ReapStartsNothing(cfg: Scheduling, st: State, id: string, proc: nat, o: Oracle)
    requires Core(cfg, st)
    ensures forall x :: Runs(Reap(cfg, st, id, proc, o), x) ==> Runs(st, x)
    ensures Reap(cfg, st, id, proc, o).procs.Keys == st.procs.Keys
    ensures forall x :: !Runs(st, x) && BackoffActive(Reap(cfg, st, id, proc, o), x) ==> BackoffActive(st, x)
  {
    hide Listens, RecordFail, Core;
    if id in st.procs && proc != 0 && st.procs[id].cmd == proc {
      AdoptedCore(cfg, st, id);
      StoppedCore(cfg, st, id);
      RecordFailCore(cfg, Stopped(st, id), id);
      RecordFailShape(Stopped(st, id), id);
      forall x | BackoffActive(RecordFail(Stopped(st, id), id), x) ensures BackoffActive(Stopped(st, id), x) || x == id {
        RecordFailWindow(Stopped(st, id), id, x);
      }
    }
  }

  lemma VisitStartsNothing(cfg: Scheduling, st: State, id: string, o: Oracle)
    requires Core(cfg, st) && !VisitLocks(cfg, st, id, o)
    ensures forall x :: Runs(Visit(cfg, st, id, o), x) ==> Runs(st, x)
    ensures Visit(cfg, st, id, o).procs.Keys == st.procs.Keys
    ensures forall x :: BackoffActive(Visit(cfg, st, id, o), x) ==> BackoffActive(st, x)
  {
    hide Listens, Restart, MarkReady, Core, IdleForSleep;
    if id in st.procs && !st.procs[id].sleeping {
      MarkReadyCore(cfg, st, id, o);
      MarkReadySteady(cfg, st, id, o);
      forall x ensures BackoffActive(MarkReady(cfg, st, id, o), x) ==> BackoffActive(st, x) {
        MarkReadyWindows(cfg, st, id, o, x);
      }
    }
  }

  lemma EventStartsNothing(cfg: Scheduling, st: State, ev: Event)
    requires Core(cfg, st) && LockFree(cfg, st, ev)
    ensures forall x :: Runs(Apply(cfg, st, ev), x) ==> Runs(st, x)
    ensures Apply(cfg, st, ev).procs.Keys == st.procs.Keys
    ensures forall x :: !Runs(st, x) && BackoffActive(Apply(cfg, st, ev), x) ==> BackoffActive(st, x)
  {
    hide Core, Reap, Visit, VisitLocks;
    match ev
    case Reaped(id, proc, o) => ReapStartsNothing(cfg, st, id, proc, o);
    case Visited(id, o) => VisitStartsNothing(cfg, st, id, o);
    case _ =>
  }

  lemma RestKept(cfg: Scheduling, s: State, s': State, rest: Rest)
    requires RestOK(cfg, s, rest) && s'.procs.Keys == s.procs.Keys
    requires forall x :: Runs(s', x) ==> Runs(s, x)
    requires forall x :: !Runs(s, x) && BackoffActive(s', x) ==> BackoffActive(s, x)
    ensures RestOK(cfg, s', rest)
  {
    assert CodingRunning(cfg, s') ==> CodingRunning(cfg, s);
  }

  lemma PlainKeeps(cfg: Scheduling, w: World, ev: Event)
    requires Good(cfg) && WorldOK(cfg, w) && Sound(cfg, w) && Can(cfg, w, Plain(ev))
    ensures var w' := Next(cfg, w, Plain(ev)); WorldOK(cfg, w') && Sound(cfg, w')
  {
    hide Apply, Enabled, LockFree, VictimOK, RestOK, Stow;
    if w.halt.Killing? {
      hide Core, CommandsOK, WindowOK, FreedOK, ClocksOK, CodingOK, FlightOK;
      var v := w.halt.v;
      VictimHasSlot(cfg, w.st, v);
      EventCommutes(cfg, w.st, v, ev);
      VictimHasSlot(cfg, Apply(cfg, w.st, ev), v);
      StepSafe(cfg, Settled(w), ev);
      EventStartsNothing(cfg, Settled(w), ev);
      RestKept(cfg, Settled(w), Apply(cfg, Settled(w), ev), w.halt.rest);
    } else {
      StepSafe(cfg, w.st, ev);
    }
  }

  lemma VictimHasSlot(cfg: Scheduling, st: State, v: string)
    requires VictimOK(cfg, st, v)
    ensures v in st.procs
  {
  }

  // Late marks.

  lemma MoveSafe(cfg: Scheduling, ev: Event, st: State, m: Move)
    requires Safe(cfg, st) && Fine(cfg, ev, st, m) && Inv(cfg, Do(cfg, st, m))
    ensures Safe(cfg, Do(cfg, st, m))
  {
    hide Core, CommandsOK, WindowOK, FreedOK, ClocksOK, Fine, Do;
    One(cfg, ev, st, m);
    ChainSafe(cfg, ev, st, [m], Do(cfg, st, m));
  }

  lemma MarkSafe(cfg: Scheduling, st: State, id: string, o: Oracle)
    requires Safe(cfg, st) && !Asleep(st, id)
    ensures Safe(cfg, MarkReady(cfg, st, id, o))
  {
    hide Core, CommandsOK, WindowOK, FreedOK, ClocksOK, MarkReady;
    MarkReadyInv(cfg, st, id, o);
    MoveSafe(cfg, Event.Touched, st, Mark(id, o));
  }

  lemma MarkRest(cfg: Scheduling, s: State, id: string, o: Oracle, rest: Rest)
    requires Core(cfg, s) && RestOK(cfg, s, rest) && !Asleep(s, id)
    ensures RestOK(cfg, MarkReady(cfg, s, id, o), rest)
  {
    hide RestOK, Core, MarkReady;
    MarkReadyCore(cfg, s, id, o);
    MarkReadySteady(cfg, s, id, o);
    forall x ensures BackoffActive(MarkReady(cfg, s, id, o), x) ==> BackoffActive(s, x) {
      MarkReadyWindows(cfg, s, id, o, x);
    }
    RestKept(cfg, s, MarkReady(cfg, s, id, o), rest);
  }

  /** Acting on a probe late is harmless exactly when the slot is awake by then. */
  lemma LateExactlyWhen(cfg: Scheduling, w: World, id: string, o: Oracle)
    requires WorldOK(cfg, w) && Sound(cfg, w)
    ensures var w' := Next(cfg, w, Late(id, o));
      && (Sound(cfg, w') <==> !Asleep(w.st, id)) && (!Asleep(w.st, id) ==> WorldOK(cfg, w'))
  {
    hide Core, CommandsOK, WindowOK, FreedOK, ClocksOK, CodingOK, FlightOK, MarkReady, RestOK, Stow, VictimOK;
    if Asleep(w.st, id) {
      LateBreaks(cfg, w, id, o);
    } else if w.halt.Killing? {
      var v := w.halt.v;
      VictimHasSlot(cfg, w.st, v);
      assert Asleep(w.st, v) by { VictimAsleep(cfg, w.st, v); }
      StowOther(w.st, v, id);
      MarkCommutes(cfg, w.st, v, id, o);
      VictimHasSlot(cfg, MarkReady(cfg, w.st, id, o), v);
      MarkSafe(cfg, Settled(w), id, o);
      MarkRest(cfg, Settled(w), id, o, w.halt.rest);
    } else {
      MarkSafe(cfg, w.st, id, o);
    }
  }

  lemma VictimAsleep(cfg: Scheduling, st: State, v: string)
    requires VictimOK(cfg, st, v)
    ensures Asleep(st, v) && !st.procs[v].readyOK && At(cfg, v).mode != Coding && st.flight == Idle
  {
  }

  /** A sleeping slot marked ready: both flags stay up, whatever the kill still does. */
  lemma LateBreaks(cfg: Scheduling, w: World, id: string, o: Oracle)
    requires WorldOK(cfg, w) && Sound(cfg, w) && Asleep(w.st, id)
    ensures var s := Settled(Next(cfg, w, Late(id, o))); !Lifecycle(s) && !Safe(cfg, s)
  {
    hide Safe, RestOK, Listens;
    if w.halt.Killing? && w.halt.v != id {
      StowOther(w.st, w.halt.v, id);
    }
    StowedAsleep(cfg, w, id);
    ReadyAsleep(cfg, Settled(Next(cfg, w, Late(id, o))), id);
  }

  lemma StowedAsleep(cfg: Scheduling, w: World, id: string)
    requires WorldOK(cfg, w) && Sound(cfg, w) && Asleep(w.st, id)
    ensures !w.st.procs[id].readyOK
  {
    hide RestOK, CommandsOK, WindowOK, FreedOK, ClocksOK, CodingOK, FlightOK, KeysOK, OneOwner, LaunchesOK, BackoffOK;
    var s := Settled(w);
    assert SlotOK(s, s.procs[id]);
  }

  lemma ReadyAsleep(cfg: Scheduling, s: State, id: string)
    requires Asleep(s, id) && s.procs[id].readyOK
    ensures !Lifecycle(s) && !Safe(cfg, s)
  {
    assert !SlotOK(s, s.procs[id]);
  }

  // What happens before switchMu is harmless.

  lemma TouchSafe(cfg: Scheduling, st: State, id: string, mode: Mode)
    requires Safe(cfg, st)
    ensures Safe(cfg, TouchFor(st, id, mode))
  {
    hide Core, CommandsOK, WindowOK, FreedOK, ClocksOK;
    TouchInv(cfg, st, id, mode);
    var ms := TouchMoves(cfg, Event.Touched, st, id, mode);
    ChainSafe(cfg, Event.Touched, st, ms, TouchFor(st, id, mode));
  }

  lemma PreemptSafe(cfg: Scheduling, st: State, mode: Mode, target: string)
    requires Safe(cfg, st)
    ensures Safe(cfg, Preempt(st, mode, target))
  {
    hide CommandsOK, WindowOK, FreedOK, ClocksOK, CodingOK, FlightOK, Preempt;
    PreemptInv(cfg, st, mode, target);
    var ms := PreemptMoves(cfg, Event.Touched, st, mode, target);
    ChainSafe(cfg, Event.Touched, st, ms, Preempt(st, mode, target));
  }

  lemma TicketForOK(cfg: Scheduling, st: State, id: string)
    requires Good(cfg) && TicketFor(cfg, st, id).Some?
    ensures TicketOK(cfg, Ticket(id, TicketFor(cfg, st, id).value))
  {
    hide CodingRunning, LeaseActive;
    KnownMode(cfg, id);
  }

  lemma KnockedIdle(cfg: Scheduling, st: State, id: string)
    requires st.flight == Idle
    ensures Knocked(cfg, st, id) == TouchedBy(cfg, st, id)
  {
    hide TicketFor, TouchedBy;
    TouchedFlight(cfg, st, id);
  }

  lemma TouchedFlight(cfg: Scheduling, st: State, id: string)
    ensures TouchedBy(cfg, st, id).flight == st.flight
  {
  }

  lemma KnockKeeps(cfg: Scheduling, w: World, id: string)
    requires Good(cfg) && WorldOK(cfg, w) && Sound(cfg, w)
    ensures var w' := Next(cfg, w, Knock(id)); WorldOK(cfg, w') && Sound(cfg, w')
  {
    hide Core, CommandsOK, WindowOK, FreedOK, ClocksOK, CodingOK, FlightOK, RestOK, VictimOK, Stow, TicketOK, TicketFor, TouchFor;
    var s1 := TouchedBy(cfg, w.st, id);
    if TicketFor(cfg, w.st, id).Some? {
      TicketForOK(cfg, w.st, id);
    }
    if w.halt.Killing? {
      var v := w.halt.v;
      VictimAsleep(cfg, w.st, v);
      KnockedIdle(cfg, w.st, id);
      TouchCommutes(cfg, w.st, v, id);
      VictimHasSlot(cfg, s1, v);
      TouchedSafe(cfg, Settled(w), id);
      TouchedRest(cfg, Settled(w), id, w.halt.rest);
    } else {
      TouchedSafe(cfg, w.st, id);
      PreemptSafe(cfg, s1, Coding, id);
      PreemptSafe(cfg, s1, Background, id);
    }
  }

  lemma TouchedSafe(cfg: Scheduling, st: State, id: string)
    requires Safe(cfg, st)
    ensures Safe(cfg, TouchedBy(cfg, st, id))
  {
    hide Safe;
    if Served(cfg, id) {
      TouchSafe(cfg, st, id, At(cfg, id).mode);
    }
  }

  lemma TouchCommutes(cfg: Scheduling, st: State, v: string, id: string)
    requires VictimOK(cfg, st, v)
    ensures VictimOK(cfg, TouchedBy(cfg, st, id), v)
    ensures Stow(TouchedBy(cfg, st, id), v) == TouchedBy(cfg, Stow(st, v), id)
  {
    hide VictimOK, Stow, TouchFor, At, Served;
    VictimHasSlot(cfg, st, v);
    if Served(cfg, id) {
      TouchForCommutes(cfg, st, v, id, At(cfg, id).mode);
    }
  }

  lemma TouchForCommutes(cfg: Scheduling, st: State, v: string, id: string, mode: Mode)
    requires VictimOK(cfg, st, v)
    ensures VictimOK(cfg, TouchFor(st, id, mode), v)
    ensures v in TouchFor(st, id, mode).procs && Stow(TouchFor(st, id, mode), v) == TouchFor(Stow(st, v), id, mode)
  {
    hide VictimOK, Stow;
    VictimHasSlot(cfg, st, v);
    TablesCommute(cfg, st, v, TouchFor(st, id, mode));
    StowTables(st, v);
  }

  lemma TouchedRest(cfg: Scheduling, s: State, id: string, rest: Rest)
    requires RestOK(cfg, s, rest)
    ensures RestOK(cfg, TouchedBy(cfg, s, id), rest)
  {
    hide RestOK;
    RestKept(cfg, s, TouchedBy(cfg, s, id), rest);
  }

  lemma ForgetSafe(cfg: Scheduling, st: State, id: string, o: Oracle)
    requires Safe(cfg, st) && WantsRestart(cfg, st, id, o)
    ensures Safe(cfg, Forgotten(st, id))
  {
    hide Core, CommandsOK, WindowOK, FreedOK, ClocksOK, CodingOK, FlightOK;
    ForgottenInv(cfg, st, id);
    MoveSafe(cfg, Visited(id, o), st, Forget(id));
  }

  lemma StillGone(cfg: Scheduling, st: State, v: string, id: string, o: Oracle)
    requires VictimOK(cfg, st, v) && WantsRestart(cfg, st, id, o)
    ensures id != v && id in st.procs && id in Stow(st, v).procs && WantsRestart(cfg, Stow(st, v), id, o)
  {
    hide Stow, Listens, VictimOK;
    VictimAsleep(cfg, st, v);
    StowOther(st, v, id);
    ListensOn(cfg, st, v, id, o);
  }

  lemma ForgetKeeps(cfg: Scheduling, w: World, id: string, o: Oracle)
    requires WorldOK(cfg, w) && Sound(cfg, w) && WantsRestart(cfg, w.st, id, o)
    ensures var w' := w.(st := Forgotten(w.st, id)); WorldOK(cfg, w') && Sound(cfg, w')
  {
    hide Safe, RestOK, VictimOK, TicketOK, Stow, Forgotten, WantsRestart;
    if w.halt.Killing? {
      var v := w.halt.v;
      StillGone(cfg, w.st, v, id, o);
      VictimHasSlot(cfg, w.st, v);
      ForgetCommutes(cfg, w.st, v, id);
      VictimHasSlot(cfg, Forgotten(w.st, id), v);
      ForgetSafe(cfg, Settled(w), id, o);
      ForgetRest(cfg, Settled(w), id, w.halt.rest);
    } else {
      ForgetSafe(cfg, w.st, id, o);
    }
  }

  lemma SpotKeeps(cfg: Scheduling, w: World, id: string, o: Oracle)
    requires Good(cfg) && WorldOK(cfg, w) && Sound(cfg, w) && Can(cfg, w, Spot(id, o))
    ensures var w' := Next(cfg, w, Spot(id, o)); WorldOK(cfg, w') && Sound(cfg, w')
  {
    hide WorldOK, Sound, Settled, WantsRestart, WantsNap, Forgotten;
    SpottedOK(cfg, w, id, o);
    if WantsNap(cfg, w.st, id) {
      QueueGrows(cfg, w, Ticket(id, ToNap));
    } else {
      ForgetKeeps(cfg, w, id, o);
      QueueGrows(cfg, w.(st := Forgotten(w.st, id)), Ticket(id, ToRestart));
    }
  }

  lemma QueueGrows(cfg: Scheduling, w: World, t: Ticket)
    requires WorldOK(cfg, w) && Sound(cfg, w) && TicketOK(cfg, t)
    ensures var w' := w.(queue := w.queue + multiset{t}); WorldOK(cfg, w') && Sound(cfg, w')
  {
    hide TicketOK, VictimOK, RestOK, Safe, Stow;
  }

  lemma SpottedOK(cfg: Scheduling, w: World, id: string, o: Oracle)
    requires Good(cfg) && WorldOK(cfg, w) && Sound(cfg, w) && Can(cfg, w, Spot(id, o))
    ensures TicketOK(cfg, Ticket(id, ToNap)) && TicketOK(cfg, Ticket(id, ToRestart)) && id in w.st.procs
  {
    hide WorldOK, Sound, IdleForSleep, Gone;
    SlotKnown(cfg, w, id);
    KnownMode(cfg, id);
  }

  lemma SlotKnown(cfg: Scheduling, w: World, id: string)
    requires Sound(cfg, w) && WorldOK(cfg, w) && id in w.st.procs
    ensures Known(cfg, id)
  {
    var s := Settled(w);
    assert KeysOK(cfg, s) && id in s.procs;
  }

  lemma ForgetRest(cfg: Scheduling, s: State, id: string, rest: Rest)
    requires RestOK(cfg, s, rest) && id in s.procs
    ensures RestOK(cfg, Forgotten(s, id), rest)
  {
    hide RestOK;
    RestKept(cfg, s, Forgotten(s, id), rest);
  }

  // A waiting caller has its turn.

  lemma ChainKeeps(cfg: Scheduling, ev: Event, st: State, ms: seq<Move>, st': State)
    requires Safe(cfg, st) && Chain(cfg, ev, st, ms, st') && Inv(cfg, st')
    ensures Safe(cfg, st')
  {
    hide Core, CommandsOK, WindowOK, FreedOK, ClocksOK, CodingOK, FlightOK;
    ChainSafe(cfg, ev, st, ms, st');
  }

  /** acquireGPU refuses exactly when an owner is resident, whichever its scan meets. */
  lemma RefusesExactlyWhen(cfg: Scheduling, st: State, id: string, o: Oracle)
    requires Core(cfg, st)
    ensures Acquire(cfg, st, id, o) == None <==> Refuses(cfg, st, id)
  {
    hide Owners, OneOwner, Lifecycle, LaunchesOK, BackoffOK, KeysOK;
    if Refuses(cfg, st, id) {
      var v :| v in Owners(cfg, st, id) && At(cfg, v).resident;
      var first := FirstOwner(cfg, st, id, o);
      if first != v {
        SecondOwner(cfg, st, id, first, v);
      }
    }
  }

  lemma SuspendSafe(cfg: Scheduling, st: State, id: string)
    requires Safe(cfg, st) && st.flight == Idle && id in st.procs && At(cfg, id).mode != Coding
    ensures Safe(cfg, Suspend(st, id))
  {
    hide Core, CodingOK, FlightOK, Conflict;
    SuspendInv(cfg, st, id);
    SuspendKeeps(cfg, st, id);
  }

  lemma SuspendKeeps(cfg: Scheduling, st: State, id: string)
    requires Core(cfg, st) && CommandsOK(cfg, st) && WindowOK(cfg, st) && FreedOK(cfg, st) && ClocksOK(st) && id in st.procs
    ensures var st' := Suspend(st, id); CommandsOK(cfg, st') && WindowOK(cfg, st') && FreedOK(cfg, st') && ClocksOK(st')
  {
    hide Conflict, Core;
    SuspendCore(cfg, st, id);
  }

  lemma ServeCoding(cfg: Scheduling, st: State, id: string, o: Oracle)
    requires Good(cfg) && Safe(cfg, st) && Known(cfg, id) && id != "" && At(cfg, id).mode == Coding
    ensures Safe(cfg, LockedCoding(cfg, st, id, o).0) <==> Runs(st, id) || InTime(cfg, st, id, o)
  {
    hide Core, CodingOK, FlightOK, CommandsOK, WindowOK, FreedOK, ClocksOK, SwitchTo, BackoffActive, Starts;
    if !Runs(st, id) {
      if InTime(cfg, st, id, o) {
        SwitchInv(cfg, st, [id], Coding, o);
        var ms := SwitchMoves(cfg, Ask(id, o), st, [id], Coding, o);
        ChainKeeps(cfg, Ask(id, o), st, ms, SwitchTo(cfg, st, [id], Coding, o));
      } else {
        SwitchStarts(cfg, st, id, o);
        OutOfTime(cfg, SwitchTo(cfg, st, [id], Coding, o), id);
      }
    }
  }

  lemma CodingNotInGroup(cfg: Scheduling, id: string)
    requires Good(cfg) && At(cfg, id).mode == Coding
    ensures !InGroup(cfg, id)
  {
    if InGroup(cfg, id) {
      AtKey(cfg, id);
    }
  }

  lemma OutOfTime(cfg: Scheduling, st: State, id: string)
    requires Runs(st, id) && BackoffActive(st, id) && !InGroup(cfg, id)
    ensures !WindowOK(cfg, st)
  {
  }

  lemma SwitchStarts(cfg: Scheduling, st: State, id: string, o: Oracle)
    requires Good(cfg) && Inv(cfg, st) && Known(cfg, id) && id != "" && At(cfg, id).mode == Coding
    requires !Runs(st, id) && Starts(cfg, id, o)
    ensures var st' := SwitchTo(cfg, st, [id], Coding, o);
      Runs(st', id) && (BackoffActive(st, id) ==> BackoffActive(st', id)) && !InGroup(cfg, id)
  {
    hide Target, CodingOK, FlightOK, Launchable;
    var s0 := StopAll(cfg, st);
    StopAllCore(cfg, st);
    StopAllLaunchable(cfg, st, [id], Coding);
    CodingNotInGroup(cfg, id);
    assert id !in s0.procs;
    TargetsRun(cfg, s0, [id], o, id);
    assert Targets(cfg, s0, [id], o) == Target(cfg, s0, id, o) by { assert [id][1..] == []; }
    TargetTables(cfg, s0, id, o);
  }

  lemma ServeOnDemand(cfg: Scheduling, st: State, id: string, o: Oracle)
    requires Good(cfg) && Safe(cfg, st) && st.flight == Idle && Known(cfg, id)
    requires At(cfg, id).mode == Background && !InGroup(cfg, id)
    ensures Safe(cfg, LockedOnDemand(cfg, st, id, o).0) <==>
      Runs(st, id) || Refuses(cfg, st, id) || (GuardHolds(cfg, st, id) && InTime(cfg, st, id, o))
  {
    hide Core, CodingOK, FlightOK, CommandsOK, WindowOK, FreedOK, ClocksOK, AcquireAndLaunch, BackoffActive, Starts, Refuses, GuardHolds;
    if !Runs(st, id) {
      RefusesExactlyWhen(cfg, st, id, o);
      if Refuses(cfg, st, id) {
        RefusedUnchanged(cfg, st, id, o);
      } else if !GuardHolds(cfg, st, id) {
        LaunchBesideCoding(cfg, st, id, o);
      } else if InTime(cfg, st, id, o) {
        AcquireAndLaunchInTime(cfg, st, id, o);
      } else {
        LaunchStarts(cfg, st, id, o);
        OutOfTime(cfg, AcquireAndLaunch(cfg, st, id, o).0, id);
      }
    }
  }

  lemma RefusedUnchanged(cfg: Scheduling, st: State, id: string, o: Oracle)
    requires Acquire(cfg, st, id, o) == None
    ensures AcquireAndLaunch(cfg, st, id, o).0 == st
  {
  }

  lemma AcquireAndLaunchInTime(cfg: Scheduling, st: State, id: string, o: Oracle)
    requires Good(cfg) && Safe(cfg, st) && st.flight == Idle && Known(cfg, id) && At(cfg, id).mode == Background
    requires GuardHolds(cfg, st, id) && !Runs(st, id) && InTime(cfg, st, id, o)
    ensures Safe(cfg, AcquireAndLaunch(cfg, st, id, o).0)
  {
    hide Core, CodingOK, FlightOK, CommandsOK, WindowOK, FreedOK, ClocksOK, AcquireAndLaunch;
    AcquireAndLaunchInv(cfg, st, id, o);
    var ms := AcquireAndLaunchMoves(cfg, Ask(id, o), st, id, o);
    ChainKeeps(cfg, Ask(id, o), st, ms, AcquireAndLaunch(cfg, st, id, o).0);
  }

  lemma AloneStarts(cfg: Scheduling, st: State, id: string, o: Oracle)
    requires st.nextProc > 0 && Starts(cfg, id, o)
    ensures var st' := LaunchAlone(cfg, st, id, o);
      Runs(st', id) && (BackoffActive(st, id) ==> BackoffActive(st', id))
  {
    FreePortTables(cfg, st, id, o);
    FreePortShape(cfg, st, id, o);
  }

  lemma LaunchStarts(cfg: Scheduling, st: State, id: string, o: Oracle)
    requires Core(cfg, st) && Starts(cfg, id, o) && Acquire(cfg, st, id, o).Some?
    ensures var st' := AcquireAndLaunch(cfg, st, id, o).0;
      Runs(st', id) && (BackoffActive(st, id) ==> BackoffActive(st', id))
  {
    hide LaunchAlone;
    AloneStarts(cfg, Acquire(cfg, st, id, o).value, id, o);
  }

  /** A coding slot that holds the card is the one evicted. */
  lemma CodingEvicted(cfg: Scheduling, st: State, id: string, c: string, o: Oracle)
    requires Core(cfg, st) && c in Owners(cfg, st, id) && At(cfg, id).gpu != "" && Acquire(cfg, st, id, o).Some?
    ensures Acquire(cfg, st, id, o).value == Suspend(st, c)
  {
    hide OneOwner, Lifecycle, LaunchesOK, BackoffOK, KeysOK, Suspend;
    var first := FirstOwner(cfg, st, id, o);
    if first != c {
      SecondOwner(cfg, st, id, first, c);
    }
  }

  lemma EvictedBreaks(cfg: Scheduling, st: State, id: string, c: string, o: Oracle)
    requires c in st.procs && c != id && At(cfg, c).mode == Coding
    ensures !CodingOK(cfg, LaunchAlone(cfg, Suspend(st, c), id, o))
  {
    hide Launch;
    LaunchShape(cfg, Suspend(st, c), id, o);
    var st' := LaunchAlone(cfg, Suspend(st, c), id, o);
    assert c in st'.procs && st'.procs[c].sleeping;
  }

  /** Everything else that holds a card beside a coding process is resident. */
  lemma NoOtherOwner(cfg: Scheduling, st: State, id: string, c: string, o: Oracle)
    requires Good(cfg) && Core(cfg, st) && CodingOK(cfg, st) && Runs(st, c) && At(cfg, c).mode == Coding
    requires At(cfg, id).gpu != "" && c !in Owners(cfg, st, id) && Acquire(cfg, st, id, o).Some?
    ensures Acquire(cfg, st, id, o).value == st
  {
    hide OneOwner, Lifecycle, LaunchesOK, BackoffOK;
    forall v | v in Owners(cfg, st, id) ensures At(cfg, v).resident {
      assert Survives(cfg, v);
    }
  }

  lemma PlacedBreaks(cfg: Scheduling, st: State, id: string, c: string)
    requires id in st.procs && !Survives(cfg, id) && Runs(st, c) && At(cfg, c).mode == Coding && id != c
    ensures !CodingOK(cfg, st)
  {
  }

  lemma FreedBreaks(cfg: Scheduling, st: State, id: string, c: string)
    requires (id, c) in st.freed && !Survives(cfg, id) && At(cfg, c).mode == Coding
    ensures !FreedOK(cfg, st)
  {
    assert !Conflict(cfg, id, c);
  }

  /** A process the port clean-up spares runs on. */
  lemma SparedRuns(cfg: Scheduling, st: State, id: string, c: string, o: Oracle)
    requires LaunchesOK(st) && Runs(st, c) && c != id
    ensures var st' := LaunchAlone(cfg, st, id, o); id in st'.procs && (Runs(st', c) || (id, c) in st'.freed)
  {
    hide Listens;
    if At(cfg, id).command != "" && c !in PortVictims(cfg, st, id, o) {
      var s1 := FreePort(cfg, st, id, o);
      assert s1.procs == st.procs;
      assert Runs(s1, c);
    }
  }

  lemma BesideBreaks(cfg: Scheduling, st: State, id: string, c: string, o: Oracle)
    requires LaunchesOK(st) && Runs(st, c) && At(cfg, c).mode == Coding && id != c && !Survives(cfg, id)
    ensures !Safe(cfg, LaunchAlone(cfg, st, id, o))
  {
    hide LaunchAlone, CodingOK, FreedOK, Core, FlightOK, CommandsOK, WindowOK, ClocksOK, LaunchesOK;
    var st' := LaunchAlone(cfg, st, id, o);
    SparedRuns(cfg, st, id, c, o);
    if Runs(st', c) {
      PlacedBreaks(cfg, st', id, c);
    } else {
      FreedBreaks(cfg, st', id, c);
    }
  }

  /** An on-demand model served while coding runs without it: the coding slot is evicted,
      or gets a neighbour it does not bear, or loses its server to the port clean-up. */
  lemma LaunchBesideCoding(cfg: Scheduling, st: State, id: string, o: Oracle)
    requires Good(cfg) && Safe(cfg, st) && Known(cfg, id) && At(cfg, id).mode == Background
    requires !GuardHolds(cfg, st, id) && Acquire(cfg, st, id, o).Some?
    ensures !Safe(cfg, AcquireAndLaunch(cfg, st, id, o).0)
  {
    hide LaunchAlone, CodingOK, FreedOK, FlightOK, CommandsOK, WindowOK, ClocksOK, OneOwner, Lifecycle, BackoffOK, KeysOK, LaunchesOK;
    hide Acquire, Suspend, Owners;
    var c :| c in st.procs && Runs(st, c) && At(cfg, c).mode == Coding;
    if c in Owners(cfg, st, id) {
      CodingEvicted(cfg, st, id, c, o);
      EvictedBreaks(cfg, st, id, c, o);
    } else {
      NoOtherOwner(cfg, st, id, c, o);
      BesideBreaks(cfg, st, id, c, o);
    }
  }

  lemma GroupServed(cfg: Scheduling, st: State, id: string, o: Oracle)
    requires Good(cfg) && Safe(cfg, st) && IsGroup(cfg, o.group)
    ensures Safe(cfg, LockedGroup(cfg, st, id, o).0)
  {
    hide Core, CodingOK, FlightOK, CommandsOK, WindowOK, FreedOK, ClocksOK, GroupSwitch;
    GroupSwitchInv(cfg, st, o);
    var ms := GroupSwitchMoves(cfg, Ask(id, o), st, o);
    ChainKeeps(cfg, Ask(id, o), st, ms, GroupSwitch(cfg, st, o));
  }

  lemma RestartServed(cfg: Scheduling, st: State, id: string, o: Oracle)
    requires Good(cfg) && Safe(cfg, st) && st.flight == Idle
    ensures Safe(cfg, Restart(cfg, st, id, o))
  {
    hide Core, CodingOK, FlightOK, CommandsOK, WindowOK, FreedOK, ClocksOK, Restart;
    RestartInv(cfg, st, id, o);
    var ms := RestartMoves(cfg, Ask(id, o), st, id, o);
    ChainKeeps(cfg, Ask(id, o), st, ms, Restart(cfg, st, id, o));
  }

  lemma ServeExactlyWhen(cfg: Scheduling, w: World, t: Ticket, o: Oracle)
    requires Good(cfg) && WorldOK(cfg, w) && Sound(cfg, w) && Can(cfg, w, Serve(t, o))
    ensures var w' := Next(cfg, w, Serve(t, o)); WorldOK(cfg, w') && (Sound(cfg, w') <==> Clean(cfg, w, Serve(t, o)))
  {
    hide Safe, LockedCoding, LockedOnDemand, LockedGroup, Restart, Suspend, RestOK, VictimOK, InTime, GuardHolds, Refuses;
    SafeSlots(cfg, w.st);
    match t.path
    case ToCoding => ServeCoding(cfg, w.st, t.id, o);
    case ToOnDemand => ServeOnDemand(cfg, w.st, t.id, o);
    case ToGroup => GroupServed(cfg, w.st, t.id, o);
    case ToRestart => RestartServed(cfg, w.st, t.id, o);
    case ToNap =>
      if NapsNow(w.st, t.id) {
        SuspendSafe(cfg, w.st, t.id);
      }
  }

  lemma SafeSlots(cfg: Scheduling, st: State)
    requires Safe(cfg, st)
    ensures Inv(cfg, st)
  {
  }

  // A kill begins.

  /** With its flags lowered a slot is one whose kill is under way. */
  lemma DrowseVictim(cfg: Scheduling, st: State, v: string)
    requires LaunchesOK(st) && Lifecycle(st) && v in st.procs && st.flight == Idle && At(cfg, v).mode != Coding
    ensures VictimOK(cfg, Drowse(st, v), v)
  {
    assert SlotOK(st, st.procs[v]);
  }

  lemma BreakShape(cfg: Scheduling, w: World, t: Ticket, o: Oracle)
    requires Can(cfg, w, Break(t, o))
    ensures var h, w' := KillOf(cfg, w.st, t, o), Next(cfg, w, Break(t, o));
      && h.v in w.st.procs && w' == World(Drowse(w.st, h.v), h, w.queue - multiset{t}) && Settled(w') == Suspend(w.st, h.v)
  {
    hide KillOf, Stow, Suspend;
    KillThenResume(cfg, w.st, t, o);
    HalvesSuspend(w.st, KillOf(cfg, w.st, t, o).v);
  }

  /** A kill may begin when its victim, the slots without it and what follows allow it. */
  lemma BreakKeeps(cfg: Scheduling, w: World, t: Ticket, o: Oracle)
    requires WorldOK(cfg, w) && Can(cfg, w, Break(t, o))
    requires var h := KillOf(cfg, w.st, t, o);
      h.v in w.st.procs && VictimOK(cfg, Drowse(w.st, h.v), h.v) && Safe(cfg, Suspend(w.st, h.v))
      && RestOK(cfg, Suspend(w.st, h.v), h.rest)
    ensures var w' := Next(cfg, w, Break(t, o)); WorldOK(cfg, w') && Sound(cfg, w')
  {
    hide KillOf, Next, Can, Settled, Drowse, Suspend, Safe, VictimOK, RestOK, TicketOK;
    BreakShape(cfg, w, t, o);
  }

  lemma BreakNap(cfg: Scheduling, w: World, t: Ticket, o: Oracle)
    requires Good(cfg) && WorldOK(cfg, w) && Sound(cfg, w) && Can(cfg, w, Break(t, o)) && t.path == ToNap
    ensures var w' := Next(cfg, w, Break(t, o)); WorldOK(cfg, w') && Sound(cfg, w')
  {
    hide Safe, Suspend, VictimOK, Drowse, Next;
    SafeSlots(cfg, w.st);
    DrowseVictim(cfg, w.st, t.id);
    SuspendSafe(cfg, w.st, t.id);
    BreakKeeps(cfg, w, t, o);
  }

  /** What follows an eviction may follow it. */
  lemma EvictionRest(cfg: Scheduling, st: State, id: string, o: Oracle)
    requires Core(cfg, st) && Known(cfg, id) && At(cfg, id).mode == Background && !Runs(st, id)
    requires GuardHolds(cfg, st, id) && Evicts(cfg, st, id, o)
    ensures var s1 := Suspend(st, FirstOwner(cfg, st, id, o));
      && MayFollow(cfg, s1, id) && s1.procs.Keys == st.procs.Keys && (BackoffActive(s1, id) ==> BackoffActive(st, id))
  {
    AcquireCore(cfg, st, id, o);
    AcquireKeeps(cfg, st, id, o);
  }

  lemma EvictionSafe(cfg: Scheduling, st: State, id: string, o: Oracle)
    requires Good(cfg) && Safe(cfg, st) && st.flight == Idle && Known(cfg, id)
    requires GuardHolds(cfg, st, id) && Evicts(cfg, st, id, o)
    ensures var v := FirstOwner(cfg, st, id, o);
      && VictimOK(cfg, Drowse(st, v), v) && Safe(cfg, Suspend(st, v)) && Stow(Drowse(st, v), v) == Suspend(st, v)
  {
    hide Suspend, Drowse, Stow, VictimOK, WindowOK, CommandsOK, FreedOK, ClocksOK, CodingOK, KeysOK, OneOwner, Lifecycle, BackoffOK;
    var v := FirstOwner(cfg, st, id, o);
    ArbitrationSparesCoding(cfg, st, id);
    SuspendSafe(cfg, st, v);
    DrowseVictim(cfg, st, v);
    HalvesSuspend(st, v);
  }

  lemma BreakRestart(cfg: Scheduling, w: World, t: Ticket, o: Oracle)
    requires Good(cfg) && WorldOK(cfg, w) && Sound(cfg, w) && Can(cfg, w, Break(t, o)) && t.path == ToRestart
    ensures var w' := Next(cfg, w, Break(t, o)); WorldOK(cfg, w') && Sound(cfg, w')
  {
    hide Safe, Suspend, VictimOK, Drowse, Evicts, MayFollow, Core, CodingOK, FlightOK, CodingRunning, Runs, Next;
    SafeSlots(cfg, w.st);
    RestartGuarded(cfg, w.st, t.id);
    EvictionSafe(cfg, w.st, t.id, o);
    EvictionRest(cfg, w.st, t.id, o);
    BreakKeeps(cfg, w, t, o);
  }

  /** Without the guard the eviction stops the coding process. */
  lemma UnguardedEviction(cfg: Scheduling, st: State, id: string, o: Oracle)
    requires Good(cfg) && Inv(cfg, st) && Evicts(cfg, st, id, o) && !GuardHolds(cfg, st, id)
    ensures var v := FirstOwner(cfg, st, id, o); At(cfg, v).mode == Coding && !CodingOK(cfg, Suspend(st, v))
  {
    hide OneOwner, Lifecycle, LaunchesOK, BackoffOK;
    var c :| c in st.procs && Runs(st, c) && At(cfg, c).mode == Coding;
    var v := FirstOwner(cfg, st, id, o);
    assert v != c ==> Survives(cfg, v);
    assert v in Suspend(st, v).procs && Suspend(st, v).procs[v].sleeping;
  }

  lemma BreakOnDemand(cfg: Scheduling, w: World, t: Ticket, o: Oracle)
    requires Good(cfg) && WorldOK(cfg, w) && Sound(cfg, w) && Can(cfg, w, Break(t, o)) && t.path == ToOnDemand
    ensures var w' := Next(cfg, w, Break(t, o));
      && (Sound(cfg, w') <==> GuardHolds(cfg, w.st, t.id)) && (GuardHolds(cfg, w.st, t.id) ==> WorldOK(cfg, w'))
  {
    hide Suspend, VictimOK, Drowse, Evicts, MayFollow, Core, CodingOK, FlightOK, GuardHolds, Next;
    hide CommandsOK, WindowOK, FreedOK, ClocksOK;
    BreakShape(cfg, w, t, o);
    if GuardHolds(cfg, w.st, t.id) {
      EvictionSafe(cfg, w.st, t.id, o);
      EvictionRest(cfg, w.st, t.id, o);
      BreakKeeps(cfg, w, t, o);
    } else {
      UnguardedEviction(cfg, w.st, t.id, o);
    }
  }

  // A kill ends.

  lemma ShutRelaunch(cfg: Scheduling, s: State, id: string, o: Oracle)
    requires Good(cfg) && Safe(cfg, s) && s.flight == Idle && RestOK(cfg, s, ThenRelaunch(id))
    ensures Safe(cfg, Relaunch(cfg, s, id, o))
  {
    hide Core, CodingOK, FlightOK, CommandsOK, WindowOK, FreedOK, ClocksOK, Relaunch;
    FreeBeside(cfg, s, id);
    RelaunchInv(cfg, s, id, o);
    var ms := RelaunchMoves(cfg, Ask(id, o), s, id, o);
    ChainKeeps(cfg, Ask(id, o), s, ms, Relaunch(cfg, s, id, o));
  }

  lemma FreeBeside(cfg: Scheduling, s: State, id: string)
    requires MayFollow(cfg, s, id)
    ensures GPUFree(cfg, s, id) && Beside(cfg, s, id)
  {
    forall x | Runs(s, x) && x != id ensures MayJoin(cfg, id, x) {
      assert At(cfg, x).mode == Coding ==> CodingRunning(cfg, s);
    }
  }

  lemma ShutLaunch(cfg: Scheduling, s: State, id: string, o: Oracle)
    requires Good(cfg) && Safe(cfg, s) && RestOK(cfg, s, ThenLaunch(id))
    ensures Safe(cfg, LaunchAlone(cfg, s, id, o)) <==> InTime(cfg, s, id, o)
  {
    hide Core, CodingOK, FlightOK, CommandsOK, WindowOK, FreedOK, ClocksOK, LaunchAlone, BackoffActive, Starts;
    if InTime(cfg, s, id, o) {
      FreeBeside(cfg, s, id);
      LaunchAloneInv(cfg, s, id, o);
      var ms := LaunchAloneMoves(cfg, Ask(id, o), s, id, o);
      ChainKeeps(cfg, Ask(id, o), s, ms, LaunchAlone(cfg, s, id, o));
    } else {
      FreshLaunch(cfg, s);
      AloneStarts(cfg, s, id, o);
      OutOfTime(cfg, LaunchAlone(cfg, s, id, o), id);
    }
  }

  lemma FreshLaunch(cfg: Scheduling, s: State)
    requires Core(cfg, s)
    ensures s.nextProc > 0
  {
  }

  lemma ShutExactlyWhen(cfg: Scheduling, w: World, o: Oracle)
    requires Good(cfg) && WorldOK(cfg, w) && Sound(cfg, w) && Can(cfg, w, Shut(o))
    ensures var w' := Next(cfg, w, Shut(o)); WorldOK(cfg, w') && (Sound(cfg, w') <==> Clean(cfg, w, Shut(o)))
  {
    hide Safe, RestOK, LaunchAlone, Relaunch, InTime, Stow;
    VictimAsleep(cfg, w.st, w.halt.v);
    StowFlight(w.st, w.halt.v);
    match w.halt.rest
    case Done =>
    case ThenLaunch(id) => ShutLaunch(cfg, Settled(w), id, o);
    case ThenRelaunch(id) => ShutRelaunch(cfg, Settled(w), id, o);
  }

  lemma StowFlight(st: State, v: string)
    requires v in st.procs
    ensures Stow(st, v).flight == st.flight
  {
  }

  // The whole machine.

  /** From a sound world a step leads to a sound one exactly when it is clean. */
  lemma ActExactlyWhen(cfg: Scheduling, w: World, a: Act)
    requires Good(cfg) && WorldOK(cfg, w) && Sound(cfg, w) && Can(cfg, w, a)
    ensures Sound(cfg, Next(cfg, w, a)) <==> Clean(cfg, w, a)
    ensures Clean(cfg, w, a) ==> WorldOK(cfg, Next(cfg, w, a))
  {
    hide Sound, WorldOK, Settled, GuardHolds, InTime;
    match a
    case Plain(ev) => PlainKeeps(cfg, w, ev);
    case Late(id, o) => LateExactlyWhen(cfg, w, id, o);
    case Knock(id) => KnockKeeps(cfg, w, id);
    case Spot(id, o) => SpotKeeps(cfg, w, id, o);
    case Serve(t, o) => ServeExactlyWhen(cfg, w, t, o);
    case Break(t, o) =>
      match t.path {
        case ToOnDemand => BreakOnDemand(cfg, w, t, o);
        case ToRestart => BreakRestart(cfg, w, t, o);
        case ToNap => BreakNap(cfg, w, t, o);
        case _ =>
      }
    case Shut(o) => ShutExactlyWhen(cfg, w, o);
  }

  lemma {:induction false} ActsExactlyWhen(cfg: Scheduling, w: World, acts: seq<Act>)
    requires Good(cfg) && WorldOK(cfg, w) && Sound(cfg, w) && CanAll(cfg, w, acts)
    ensures AllSound(cfg, w, acts) <==> AllClean(cfg, w, acts)
    decreases |acts|
  {
    hide Sound, WorldOK, Clean, Can, Next;
    if acts != [] {
      var w' := Next(cfg, w, acts[0]);
      ActExactlyWhen(cfg, w, acts[0]);
      if Clean(cfg, w, acts[0]) {
        ActsExactlyWhen(cfg, w', acts[1..]);
      }
    }
  }

  /** With late marks, kills that take their time and callers that wait, every promise holds
      in every state of a run if and only if every late mark finds its slot awake, every
      waiting on-demand request finds the guard still holding, and nothing outside the
      startup set is started inside its backoff window; the code tests none of the three. */
  lemma SoundExactlyWhen(cfg: Scheduling, acts: seq<Act>)
    requires Good(cfg) && CanAll(cfg, START, acts)
    ensures AllSound(cfg, START, acts) <==> AllClean(cfg, START, acts)
  {
    InitInv(cfg);
    ActsExactlyWhen(cfg, START, acts);
  }

  ghost function After(cfg: Scheduling, w: World, acts: seq<Act>): World
    requires CanAll(cfg, w, acts)
    decreases |acts|
  {
    if acts == [] then w else After(cfg, Next(cfg, w, acts[0]), acts[1..])
  }

  function Plains(evs: seq<Event>): (acts: seq<Act>)
    ensures |acts| == |evs| && forall i | 0 <= i < |evs| :: acts[i] == Plain(evs[i])
  {
    if evs == [] then [] else [Plain(evs[0])] + Plains(evs[1..])
  }

  /** The runs of the atomic machine are the runs in which nobody waits; all are clean. */
  lemma {:induction false} AtomicRuns(cfg: Scheduling, w: World, evs: seq<Event>)
    requires w.halt == NoHalt && IsRun(cfg, w.st, evs)
    ensures CanAll(cfg, w, Plains(evs)) && AllClean(cfg, w, Plains(evs))
    ensures After(cfg, w, Plains(evs)) == w.(st := Exec(cfg, w.st, evs))
    decreases |evs|
  {
    hide Apply, Enabled;
    if evs != [] {
      AtomicRuns(cfg, w.(st := Apply(cfg, w.st, evs[0])), evs[1..]);
      assert Plains(evs)[1..] == Plains(evs[1..]);
    }
  }

  // Channels alone.

  ghost predicate AllChannels(cfg: Scheduling, w: World, acts: seq<Act>)
    requires CanAll(cfg, w, acts)
    decreases |acts|
  {
    Lifecycle(Settled(w)) && (acts != [] ==> AllChannels(cfg, Next(cfg, w, acts[0]), acts[1..]))
  }

  /** Every late mark finds its slot awake. */
  ghost predicate MarksAwake(cfg: Scheduling, w: World, acts: seq<Act>)
    requires CanAll(cfg, w, acts)
    decreases |acts|
  {
    acts != [] ==>
      (acts[0].Late? ==> !Asleep(w.st, acts[0].id)) && MarksAwake(cfg, Next(cfg, w, acts[0]), acts[1..])
  }

  /** Everything else is clean. */
  ghost predicate CallersClean(cfg: Scheduling, w: World, acts: seq<Act>)
    requires CanAll(cfg, w, acts)
    decreases |acts|
  {
    acts != [] ==>
      (acts[0].Late? || Clean(cfg, w, acts[0])) && CallersClean(cfg, Next(cfg, w, acts[0]), acts[1..])
  }

  lemma SoundChannels(cfg: Scheduling, w: World)
    requires Sound(cfg, w)
    ensures Lifecycle(Settled(w))
  {
    hide Settled;
  }

  lemma LateChannels(cfg: Scheduling, w: World, id: string, o: Oracle)
    requires WorldOK(cfg, w) && Sound(cfg, w) && Asleep(w.st, id)
    ensures !Lifecycle(Settled(Next(cfg, w, Late(id, o))))
  {
    hide Lifecycle, Safe;
    LateBreaks(cfg, w, id, o);
  }

  /** A mark may come as late as it likes, also during a kill: the channels stay sound in
      every state if and only if every late mark finds its slot awake. */
  lemma {:induction false} ChannelsExactlyWhen(cfg: Scheduling, w: World, acts: seq<Act>)
    requires Good(cfg) && WorldOK(cfg, w) && Sound(cfg, w) && CanAll(cfg, w, acts) && CallersClean(cfg, w, acts)
    ensures AllChannels(cfg, w, acts) <==> MarksAwake(cfg, w, acts)
    decreases |acts|
  {
    hide Sound, WorldOK, Can, Next, Settled, Lifecycle;
    SoundChannels(cfg, w);
    if acts != [] {
      ActExactlyWhen(cfg, w, acts[0]);
      if acts[0].Late? && Asleep(w.st, acts[0].id) {
        LateChannels(cfg, w, acts[0].id, acts[0].o);
        assert !AllChannels(cfg, Next(cfg, w, acts[0]), acts[1..]);
      } else {
        ActsClean(cfg, w, acts);
        ChannelsExactlyWhen(cfg, Next(cfg, w, acts[0]), acts[1..]);
      }
    }
  }

  lemma ActsClean(cfg: Scheduling, w: World, acts: seq<Act>)
    requires acts != [] && CanAll(cfg, w, acts) && CallersClean(cfg, w, acts)
    requires !(acts[0].Late? && Asleep(w.st, acts[0].id))
    ensures Clean(cfg, w, acts[0])
  {
  }
}
