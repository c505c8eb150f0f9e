/** The scheduler's promises, over every run from the initial state. */
module Theorems {
  import opened Text
  import opened Config
  import opened Backoff
  import opened Machine
  import opened Invariants
  import opened Steps
  import opened Moves
  import opened Safety
  import opened Continuity

  /** evs is a run from the initial state. */
  ghost predicate Legal(cfg: Scheduling, evs: seq<Event>) {
    IsRun(cfg, INIT, evs)
  }

  ghost function Reached(cfg: Scheduling, evs: seq<Event>): State {
    Exec(cfg, INIT, evs)
  }

  /** A run goes on with any step enabled where it ended. */
  lemma {:induction false} RunExtends(cfg: Scheduling, from: State, log: seq<Event>, ev: Event)
    requires IsRun(cfg, from, log) && Enabled(cfg, Exec(cfg, from, log), ev)
    ensures IsRun(cfg, from, log + [ev])
    ensures Exec(cfg, from, log + [ev]) == Apply(cfg, Exec(cfg, from, log), ev)
    decreases |log|
  {
    hide Apply, Enabled;
    if log == [] {
      assert log + [ev] == [ev] && [ev][1..] == [];
    } else {
      RunExtends(cfg, Apply(cfg, from, log[0]), log[1..], ev);
      assert (log + [ev])[0] == log[0] && (log + [ev])[1..] == log[1..] + [ev];
    }
  }

  lemma ReachedInv(cfg: Scheduling, evs: seq<Event>)
    requires Good(cfg) && Legal(cfg, evs)
    ensures Inv(cfg, Reached(cfg, evs))
  {
    InitInv(cfg);
    RunInv(cfg, INIT, evs);
  }

  lemma ReachedSafe(cfg: Scheduling, evs: seq<Event>)
    requires Good(cfg) && Legal(cfg, evs)
    ensures Safe(cfg, Reached(cfg, evs))
  {
    InitInv(cfg);
    RunSafe(cfg, INIT, evs);
  }

  lemma ReachedProper(cfg: Scheduling, evs: seq<Event>)
    requires Good(cfg) && Legal(cfg, evs) && Canonical(evs)
    ensures ProperOK(cfg, Reached(cfg, evs))
  {
    InitInv(cfg);
    RunProper(cfg, INIT, evs);
  }

  /** Whatever ids are asked for, at most one model holds any given GPU: two running slots
      on one card are one resident startup member under two spellings. */
  lemma GPUExclusive(cfg: Scheduling, evs: seq<Event>, a: string, b: string)
    requires Good(cfg) && Legal(cfg, evs)
    requires Runs(Reached(cfg, evs), a) && Runs(Reached(cfg, evs), b)
    ensures Known(cfg, a) && Known(cfg, b)
    ensures SameCard(cfg, a, b) ==> a == b || Shadows(cfg, a, b) || Shadows(cfg, b, a)
  {
    ReachedInv(cfg, evs);
  }

  /** When requests spell ids as configured, at most one running slot does. */
  lemma GPUExclusiveAsSpelled(cfg: Scheduling, evs: seq<Event>, a: string, b: string)
    requires Good(cfg) && Legal(cfg, evs) && Canonical(evs)
    requires Runs(Reached(cfg, evs), a) && Runs(Reached(cfg, evs), b)
    ensures a in cfg.models && b in cfg.models
    ensures cfg.models[a].gpu != "" && cfg.models[a].gpu == cfg.models[b].gpu ==> a == b
  {
    ReachedProper(cfg, evs);
    AtKey(cfg, a);
    AtKey(cfg, b);
    GPUExclusive(cfg, evs, a, b);
  }

  /** While a coding process runs it is the registered model, and every other slot is a
      background one that is resident or declares no GPU. */
  lemma CodingExclusive(cfg: Scheduling, evs: seq<Event>, c: string)
    requires Good(cfg) && Legal(cfg, evs)
    requires Runs(Reached(cfg, evs), c) && At(cfg, c).mode == Coding
    ensures Reached(cfg, evs).codingModel == c
    ensures forall b | b in Reached(cfg, evs).procs && b != c ::
      At(cfg, b).mode == Background && (At(cfg, b).resident || At(cfg, b).gpu == "")
  {
    ReachedInv(cfg, evs);
  }

  /** A coding slot is never suspended, by eviction or otherwise. */
  lemma CodingNeverEvicted(cfg: Scheduling, evs: seq<Event>, c: string)
    requires Good(cfg) && Legal(cfg, evs) && At(cfg, c).mode == Coding
    ensures !Asleep(Reached(cfg, evs), c)
  {
    ReachedInv(cfg, evs);
  }

  /** The registers agree with the slots: expected lists them, at most one is a coding
      slot, and a registered coding model has one. */
  lemma RegistersAgree(cfg: Scheduling, evs: seq<Event>)
    requires Good(cfg) && Legal(cfg, evs)
    ensures var st := Reached(cfg, evs);
      && st.expected == st.procs.Keys
      && (forall a, b | a in st.procs && b in st.procs && At(cfg, a).mode == Coding && At(cfg, b).mode == Coding :: a == b)
      && (st.codingModel != "" ==> st.codingModel in st.procs && At(cfg, st.codingModel).mode == Coding)
  {
    ReachedInv(cfg, evs);
  }

  /** Whatever ids are asked for, no two running background models share a readiness
      origin: two such slots are one model under two spellings. */
  lemma OriginsNotShared(cfg: Scheduling, evs: seq<Event>, a: string, b: string)
    requires Good(cfg) && BackgroundOriginsAccepted(cfg) && Legal(cfg, evs)
    requires Runs(Reached(cfg, evs), a) && Runs(Reached(cfg, evs), b)
    requires At(cfg, a).mode == Background && At(cfg, b).mode == Background
    requires At(cfg, a).origin != "" && At(cfg, a).origin == At(cfg, b).origin
    ensures TrimSpace(a) == TrimSpace(b)
    ensures Canonical(evs) ==> a == b
  {
    ReachedInv(cfg, evs);
    if TrimSpace(a) != TrimSpace(b) {
      assert Swappable(cfg.models[TrimSpace(a)], cfg.models[TrimSpace(b)]);
      GPUExclusive(cfg, evs, a, b);
    }
    if Canonical(evs) {
      ReachedProper(cfg, evs);
    }
  }

  /** The channels of the slots: none is closed twice, none is shared, readyChClosed tells
      the truth, ready implies closed, asleep implies stopped, unready and open. */
  lemma ChannelsSound(cfg: Scheduling, evs: seq<Event>)
    requires Good(cfg) && Legal(cfg, evs)
    ensures var st := Reached(cfg, evs);
      && (forall c :: st.closes[c] <= 1)
      && (forall a, b | a in st.procs && b in st.procs && a != b :: st.procs[a].ch != st.procs[b].ch)
      && forall id | id in st.procs :: var sl := st.procs[id];
           && sl.chClosed == (sl.ch in st.closes)
           && (sl.readyOK ==> sl.ch in st.closes)
           && (sl.sleeping ==> !Runs(st, id) && !sl.readyOK && sl.ch !in st.closes)
  {
    ReachedInv(cfg, evs);
  }

  /** A retry time exists only after two failures, and no running model outside the
      startup set is inside its backoff window: none is launched there. */
  lemma BackoffRespected(cfg: Scheduling, evs: seq<Event>, id: string)
    requires Good(cfg) && Legal(cfg, evs)
    ensures var st := Reached(cfg, evs);
      && (id in st.nextRestartAt ==> id in st.failCount && st.failCount[id] >= 2)
      && (Runs(st, id) && !InGroup(cfg, id) ==> !BackoffActive(st, id))
  {
    ReachedSafe(cfg, evs);
  }

  /** No model is forgotten awake: in any reachable state a running, ready member with a
      sleep timeout and no request in flight is put to sleep by the probe visit that
      follows one idle timeout. */
  lemma IdleModelsSleep(cfg: Scheduling, evs: seq<Event>, id: string, o: Oracle)
    requires Good(cfg) && Legal(cfg, evs) && Reached(cfg, evs).flight == Idle
    requires var st := Reached(cfg, evs);
      Runs(st, id) && st.procs[id].readyOK && !(id in st.inflight && st.inflight[id] > 0)
    requires At(cfg, id).sleepTimeout > 0
    ensures var more := [Tick(At(cfg, id).sleepTimeout + 1), Visited(id, o)];
      IsRun(cfg, Reached(cfg, evs), more) && Asleep(Exec(cfg, Reached(cfg, evs), more), id)
  {
    hide Listens, Gone, CodingOK, FlightOK, CommandsOK, WindowOK, FreedOK, Legal;
    ReachedSafe(cfg, evs);
    var st, d := Reached(cfg, evs), At(cfg, id).sleepTimeout + 1;
    KnownMode(cfg, id);
    assert SlotOK(st, st.procs[id]);
    var s1 := st.(now := st.now + d);
    IdleSleeps(cfg, s1, id, o);
    RunOne(cfg, s1, Visited(id, o));
    RunAfterTick(cfg, st, d, [Visited(id, o)]);
    assert [Tick(d)] + [Visited(id, o)] == [Tick(d), Visited(id, o)];
  }

  lemma IdleSleeps(cfg: Scheduling, st: State, id: string, o: Oracle)
    requires SleepsNow(cfg, st, id) && st.flight == Idle
    ensures Enabled(cfg, st, Visited(id, o)) && Asleep(Apply(cfg, st, Visited(id, o)), id)
  {
  }

  /** The next failure after n - 1 in a row closes the model off for the n-th delay, the
      first one for no time at all. */
  lemma FailureBacksOff(st: State, id: string)
    requires BackoffOK(st)
    ensures var n := (if id in st.failCount then st.failCount[id] else 0) + 1;
      var st' := RecordFail(st, id);
      && st'.failCount[id] == n
      && (n >= 2 ==> st'.nextRestartAt[id] == st.now + Delay(FAIL_BACKOFF, n) && BackoffActive(st', id))
      && (n == 1 ==> !BackoffActive(st', id))
  {
    if id in st.failCount && st.failCount[id] >= 1 {
      DelayMonotone(FAIL_BACKOFF, 2, st.failCount[id] + 1);
      assert Delay(FAIL_BACKOFF, 2) == FAIL_BACKOFF by { assert Pow2(0) == 1; }
    }
  }

  /** Running survivors keep their process, from every reachable state on, whatever is
      asked for; in runs that spell ids as configured it is enough that no other
      configured model may take the port. */
  lemma SurvivorKeepsProcess(cfg: Scheduling, evs: seq<Event>, more: seq<Event>, id: string, asSpelled: bool)
    requires Good(cfg) && Legal(cfg, evs) && IsRun(cfg, Reached(cfg, evs), more)
    requires asSpelled ==> Canonical(evs) && Canonical(more)
    requires Pinned(cfg, id, asSpelled) && Runs(Reached(cfg, evs), id) && Undisturbed(cfg, Reached(cfg, evs), more, id)
    ensures SameProcess(Reached(cfg, evs), Exec(cfg, Reached(cfg, evs), more), id)
  {
    hide Safe, Reached, Pinned;
    ReachedSafe(cfg, evs);
    if asSpelled {
      ReachedProper(cfg, evs);
    }
    KeepsProcess(cfg, Reached(cfg, evs), more, id, asSpelled);
  }

  /** Sleeping survivors sleep on, from every reachable state on, unless asked for. */
  lemma SurvivorSleepsOn(cfg: Scheduling, evs: seq<Event>, more: seq<Event>, id: string)
    requires Good(cfg) && Legal(cfg, evs) && IsRun(cfg, Reached(cfg, evs), more)
    requires Asleep(Reached(cfg, evs), id) && Survives(cfg, id) && NeverAsked(more, id)
    ensures Asleep(Exec(cfg, Reached(cfg, evs), more), id)
  {
    hide Inv, Reached;
    ReachedInv(cfg, evs);
    SurvivorStaysAsleep(cfg, Reached(cfg, evs), more, id);
  }

  // Switches.

  /** switchTo leaves a slot for exactly the survivors and the targets. */
  lemma SwitchLeaves(cfg: Scheduling, st: State, ids: seq<string>, mode: Mode, o: Oracle, id: string)
    requires Good(cfg) && Inv(cfg, st) && GoodTarget(cfg, ids, mode)
    ensures var st' := SwitchTo(cfg, st, ids, mode, o);
      && (id in st'.procs <==> (id in st.procs && Survives(cfg, id)) || id in ids)
      && (id in st'.expected <==> id in st'.procs)
      && (id in ids && id !in st'.flight.wait ==> Asleep(st, id) && Asleep(st', id))
  {
    SwitchShape(cfg, st, ids, mode, o);
    SwitchInv(cfg, st, ids, mode, o);
  }

  /** A switch leaves a sleeping model asleep if and only if it is a survivor: a sleeping
      member that declares a GPU and is not resident loses its slot, and is launched again
      if it is a target. */
  lemma SwitchSparesSleeper(cfg: Scheduling, st: State, ids: seq<string>, mode: Mode, o: Oracle, id: string)
    requires ids != [] && Asleep(st, id)
    ensures var st' := SwitchTo(cfg, st, ids, mode, o);
      && (Asleep(st', id) <==> Survives(cfg, id))
      && (Survives(cfg, id) ==> st'.procs[id] == st.procs[id])
      && (id in st'.procs <==> Survives(cfg, id) || id in ids)
  {
    hide SwitchTo;
    SwitchShape(cfg, st, ids, mode, o);
  }

  lemma {:induction false} MarkAllMarks(cfg: Scheduling, st: State, ids: seq<string>, o: Oracle, id: string)
    requires id in st.procs
    ensures var st' := MarkAll(cfg, st, ids, o);
      && id in st'.procs && (id in ids || st.procs[id].readyOK ==> st'.procs[id].readyOK)
      && st'.procs[id].sleeping == st.procs[id].sleeping
    decreases |ids|
  {
    if ids != [] {
      MarkReadyMarks(cfg, st, ids[0], o, id);
      MarkAllMarks(cfg, MarkReady(cfg, st, ids[0], o), ids[1..], o, id);
      assert ids == [ids[0]] + ids[1..];
    }
  }

  lemma MarkReadyMarks(cfg: Scheduling, st: State, k: string, o: Oracle, id: string)
    requires id in st.procs
    ensures var st' := MarkReady(cfg, st, k, o);
      && id in st'.procs && (id == k || st.procs[id].readyOK ==> st'.procs[id].readyOK)
      && st'.procs[id].sleeping == st.procs[id].sleeping
  {
  }

  /** When a switch ends with every awaited probe answered, each target is ready or asleep. */
  lemma SwitchSucceeds(cfg: Scheduling, st: State, oks: seq<string>, o: Oracle, id: string)
    requires Inv(cfg, st) && Enabled(cfg, st, Finish(oks, o))
    requires forall x :: x in st.flight.wait ==> x in oks
    requires id in st.flight.ids
    ensures var st' := Apply(cfg, st, Finish(oks, o));
      id in st'.procs && (st'.procs[id].readyOK || st'.procs[id].sleeping) && st'.flight == Idle
  {
    MarkAllMarks(cfg, st, oks, o, id);
  }

  // Recovery.

  /** The startup set is back: no coding model, and a slot for every member. */
  ghost predicate BackToGroup(cfg: Scheduling, st: State) {
    st.codingModel == "" && forall id :: InGroup(cfg, id) ==> id in st.procs
  }

  lemma GroupSwitchReturns(cfg: Scheduling, st: State, o: Oracle)
    requires IsGroup(cfg, o.group) && o.group != []
    ensures BackToGroup(cfg, GroupSwitch(cfg, st, o))
  {
    SwitchShape(cfg, st, o.group, Background, o);
  }

  predicate IsRecovery(ev: Event) {
    ev.Recovered? || ev.LeaseTick? || ev.Tick?
  }

  lemma RunOne(cfg: Scheduling, st: State, ev: Event)
    requires Enabled(cfg, st, ev)
    ensures IsRun(cfg, st, [ev]) && Exec(cfg, st, [ev]) == Apply(cfg, st, ev)
  {
    assert [ev][1..] == [];
  }

  lemma RunAfterTick(cfg: Scheduling, st: State, d: nat, rest: seq<Event>)
    requires IsRun(cfg, st.(now := st.now + d), rest)
    ensures IsRun(cfg, st, [Tick(d)] + rest)
    ensures Exec(cfg, st, [Tick(d)] + rest) == Exec(cfg, st.(now := st.now + d), rest)
  {
    assert ([Tick(d)] + rest)[0] == Tick(d) && ([Tick(d)] + rest)[1..] == rest;
  }

  /** Once the lease has run out, the lease branch applies. */
  lemma LeaseRunsOut(cfg: Scheduling, st: State)
    requires CodingOK(cfg, st) && st.codingModel != "" && st.flight == Idle && cfg.lease > 0
    ensures LeaseExpired(cfg, st.(now := st.now + cfg.lease))
  {
  }

  /** A coding process that died before it was ready: one probe pass recovers. */
  lemma ProbeRecovers(cfg: Scheduling, st: State, o: Oracle)
    requires DeadNeverReady(st) && st.flight == Idle && IsGroup(cfg, o.group) && o.group != []
    ensures IsRun(cfg, st, [Recovered(o)]) && BackToGroup(cfg, Exec(cfg, st, [Recovered(o)]))
  {
    GroupSwitchReturns(cfg, st, o);
    RunOne(cfg, st, Recovered(o));
  }

  /** One that crashed later: the lease runs out and the lease branch recovers. */
  lemma LeaseRecovers(cfg: Scheduling, st: State, o: Oracle)
    requires LeaseExpired(cfg, st) && st.flight == Idle && IsGroup(cfg, o.group) && o.group != []
    ensures IsRun(cfg, st, [LeaseTick(o)]) && BackToGroup(cfg, Exec(cfg, st, [LeaseTick(o)]))
  {
    GroupSwitchReturns(cfg, st, o);
    RunOne(cfg, st, LeaseTick(o));
  }

  lemma DeadStateRecovers(cfg: Scheduling, st: State, o: Oracle) returns (more: seq<Event>)
    requires CodingOK(cfg, st) && cfg.lease > 0 && IsGroup(cfg, o.group) && o.group != []
    requires st.codingModel != "" && !Runs(st, st.codingModel) && st.flight == Idle
    ensures |more| <= 2 && forall ev :: ev in more ==> IsRecovery(ev)
    ensures IsRun(cfg, st, more) && BackToGroup(cfg, Exec(cfg, st, more))
  {
    hide BackToGroup, GroupSwitch, Apply, IsGroup;
    if DeadNeverReady(st) {
      more := [Recovered(o)];
      ProbeRecovers(cfg, st, o);
    } else {
      more := [Tick(cfg.lease)] + [LeaseTick(o)];
      LeaseRunsOut(cfg, st);
      LeaseRecovers(cfg, st.(now := st.now + cfg.lease), o);
      RunAfterTick(cfg, st, cfg.lease, [LeaseTick(o)]);
    }
  }

  /** From every reachable state whose coding process is dead and in which no switch is
      under way, at most two steps of the probe loop, the lease branch and the clock bring
      the startup set back. */
  lemma DeadCodingRecovers(cfg: Scheduling, evs: seq<Event>, o: Oracle) returns (more: seq<Event>)
    requires Good(cfg) && Legal(cfg, evs) && cfg.lease > 0 && IsGroup(cfg, o.group) && o.group != []
    requires var st := Reached(cfg, evs); st.codingModel != "" && !Runs(st, st.codingModel) && st.flight == Idle
    ensures |more| <= 2 && forall ev :: ev in more ==> IsRecovery(ev)
    ensures IsRun(cfg, Reached(cfg, evs), more)
    ensures BackToGroup(cfg, Exec(cfg, Reached(cfg, evs), more))
  {
    hide BackToGroup, Exec, IsRun;
    ReachedInv(cfg, evs);
    more := DeadStateRecovers(cfg, Reached(cfg, evs), o);
  }
}
