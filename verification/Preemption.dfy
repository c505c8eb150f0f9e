/** Which requests cancel a switch under way, over every run. */
module Preemption {
  import opened Text
  import opened Config
  import opened Machine
  import opened Invariants
  import opened Steps
  import opened Theorems
  import opened Requests
  import opened Outcomes
  import opened Probes

  /** ev is a request for a coding model that neither runs nor is backing off, while a
      switch is registered that loads background models or another coding model. */
  predicate Overrides(cfg: Scheduling, st: State, ev: Event) {
    && ev.Ask? && Known(cfg, ev.id) && ev.id != "" && ev.id != PROXY_MODEL_ID && At(cfg, ev.id).mode == Coding
    && !Runs(st, ev.id) && !BackingOff(st, ev.id)
    && st.flight.Switching? && (st.flight.mode == Background || st.flight.target != ev.id)
  }

  lemma RequestOverrides(cfg: Scheduling, st: State, id: string, o: Oracle)
    requires Good(cfg) && Inv(cfg, st) && IsGroup(cfg, o.group)
    ensures var st', cancels := Request(cfg, st, id, o).0, Overrides(cfg, st, Ask(id, o));
      && (st'.preempted <==> st.preempted || cancels)
      && (st.flight.Switching? ==> st'.flight == st.flight.(cancelled := st.flight.cancelled || cancels))
      && (st'.flight.Switching? && st.flight == Idle ==> !st'.flight.cancelled)
  {
    hide Request, Inv, Switched, Restarted, LaunchedAlone, OnLease, CardKept, CodingUp, SchedulingAccepted, Runs, BackingOff;
    hide IsGroup, Asleep, Admits, ByGroup, Overrides, Known;
    var s1, r := Noted(cfg, st, id), Request(cfg, st, id, o);
    ReplyExactlyWhen(cfg, st, id, o);
    RequestLeaves(cfg, st, id, o);
    NotedFlags(cfg, st, id);
    OverridesWaits(cfg, st, id, o);
    SwitchedFlags(cfg, s1, r.0, set x | x in o.group, "", o);
    SwitchedFlags(cfg, s1, r.0, {id}, id, o);
    RestartedFlags(cfg, s1, r.0, id, o);
    AloneFlags(cfg, s1, r.0, id, o);
  }

  lemma NotedFlags(cfg: Scheduling, st: State, id: string)
    ensures var s1 := Noted(cfg, st, id);
      && s1.preempted == st.preempted && s1.flight == st.flight
      && (Cancels(cfg, s1, id) <==> Cancels(cfg, st, id))
  {
    hide Known, At, Noted;
    NotedTables(cfg, st, id);
  }

  /** Whoever overrides a switch has to wait for it, and who waits cancels it only so. */
  lemma OverridesWaits(cfg: Scheduling, st: State, id: string, o: Oracle)
    requires Good(cfg) && Inv(cfg, st) && IsGroup(cfg, o.group)
    ensures Overrides(cfg, st, Ask(id, o)) <==> Request(cfg, st, id, o).1 == Waiting && Cancels(cfg, st, id)
  {
    hide Request, Inv, OnLease, CardKept, CodingUp, SchedulingAccepted, Runs, BackingOff;
    ReplyExactlyWhen(cfg, st, id, o);
    if InGroup(cfg, id) {
      AtKey(cfg, id);
    }
  }

  lemma SwitchedFlags(cfg: Scheduling, st: State, st': State, ids: set<string>, coding: string, o: Oracle)
    ensures Switched(cfg, st, st', ids, coding, o) ==>
      st'.preempted == st.preempted && st'.flight.Switching? && !st'.flight.cancelled
  {
  }

  lemma RestartedFlags(cfg: Scheduling, st: State, st': State, id: string, o: Oracle)
    ensures Restarted(cfg, st, st', id, o) ==> st'.preempted == st.preempted && st'.flight == st.flight
  {
  }

  lemma AloneFlags(cfg: Scheduling, st: State, st': State, id: string, o: Oracle)
    ensures LaunchedAlone(cfg, st, st', id, o) ==>
      st'.preempted == st.preempted && st'.flight.Switching? && !st'.flight.cancelled
  {
  }

  /** One step cancels the registered switch if and only if it overrides it; nothing else
      but its end changes it, and no switch is registered cancelled. */
  lemma StepOverrides(cfg: Scheduling, st: State, ev: Event)
    requires Good(cfg) && Inv(cfg, st) && Enabled(cfg, st, ev)
    ensures var st' := Apply(cfg, st, ev);
      && (st'.preempted <==> st.preempted || Overrides(cfg, st, ev))
      && (st.flight.Switching? ==>
            if ev.Finish? then st'.flight == Idle
            else st'.flight == st.flight.(cancelled := st.flight.cancelled || Overrides(cfg, st, ev)))
      && (st'.flight.Switching? && st.flight == Idle ==> !st'.flight.cancelled)
  {
    hide Inv, Request, Visit, Reap, MarkReady, MarkAll, GroupSwitch, Good;
    match ev
    case Ask(id, o) => RequestOverrides(cfg, st, id, o);
    case Ready(id, o) => MarkReadyFlags(cfg, st, id, o);
    case Finish(oks, o) => FinishMarksExactly(cfg, st, oks, o);
    case Reaped(id, proc, o) => ReapFlags(cfg, st, id, proc, o);
    case Visited(id, o) => VisitFlags(cfg, st, id, o);
    case Start(o) => ReturnFlags(cfg, st, ev);
    case Recovered(o) => ReturnFlags(cfg, st, ev);
    case LeaseTick(o) => ReturnFlags(cfg, st, ev);
    case _ =>
  }

  lemma MarkReadyFlags(cfg: Scheduling, st: State, id: string, o: Oracle)
    ensures var st' := MarkReady(cfg, st, id, o); st'.preempted == st.preempted && st'.flight == st.flight
  {
    hide MarkReady;
    MarkFrame(cfg, st, id, o);
  }

  lemma ReapFlags(cfg: Scheduling, st: State, id: string, proc: nat, o: Oracle)
    requires Inv(cfg, st)
    ensures var st' := Reap(cfg, st, id, proc, o); st'.preempted == st.preempted && st'.flight == st.flight
  {
    hide Reap, Inv, Backoff.Delay;
    ReapExactlyWhen(cfg, st, id, proc, o);
  }

  lemma VisitFlags(cfg: Scheduling, st: State, id: string, o: Oracle)
    requires Good(cfg) && Inv(cfg, st)
    ensures var st' := Visit(cfg, st, id, o); st'.preempted == st.preempted && st'.flight == st.flight
  {
    hide Visit, Inv, Good, Restarted, Vanished, PutToSleep;
    VisitExactlyWhen(cfg, st, id, o);
    if id in st.procs {
      RestartedFlags(cfg, st.(procs := st.procs[id := st.procs[id].(server := 0)]), Visit(cfg, st, id, o), id, o);
    }
  }

  lemma ReturnFlags(cfg: Scheduling, st: State, ev: Event)
    requires Good(cfg) && Inv(cfg, st) && Enabled(cfg, st, ev) && (ev.Start? || ev.LeaseTick? || ev.Recovered?)
    ensures var st' := Apply(cfg, st, ev);
      st'.preempted == st.preempted && st.flight == Idle && (st'.flight.Switching? ==> !st'.flight.cancelled)
  {
    hide SwitchTo, Inv, Good, Switched;
    if ev.o.group != [] {
      Returns(cfg, st, ev);
      SwitchedFlags(cfg, st, Apply(cfg, st, ev).(started := st.started), set x | x in ev.o.group, "", ev.o);
    }
  }

  /** Some step of the run overrides the switch registered before it. */
  ghost predicate SomeOverrides(cfg: Scheduling, st: State, evs: seq<Event>)
    decreases |evs|
  {
    evs != [] && (Overrides(cfg, st, evs[0]) || SomeOverrides(cfg, Apply(cfg, st, evs[0]), evs[1..]))
  }

  lemma {:induction false} PreemptedOver(cfg: Scheduling, st: State, evs: seq<Event>)
    requires Good(cfg) && Inv(cfg, st) && IsRun(cfg, st, evs)
    ensures Exec(cfg, st, evs).preempted <==> st.preempted || SomeOverrides(cfg, st, evs)
    decreases |evs|
  {
    hide Inv, Apply, Enabled, Overrides;
    if evs != [] {
      StepOverrides(cfg, st, evs[0]);
      StepInv(cfg, st, evs[0]);
      PreemptedOver(cfg, Apply(cfg, st, evs[0]), evs[1..]);
    }
  }

  /** A preemption is on record exactly when some request overrode the switch of its time. */
  lemma PreemptedExactlyWhen(cfg: Scheduling, evs: seq<Event>)
    requires Good(cfg) && Legal(cfg, evs)
    ensures Reached(cfg, evs).preempted <==> SomeOverrides(cfg, INIT, evs)
  {
    InitInv(cfg);
    PreemptedOver(cfg, INIT, evs);
  }

  /** The run goes on without the end of the switch registered at its start. */
  predicate NoFinish(evs: seq<Event>) {
    forall i :: 0 <= i < |evs| ==> !evs[i].Finish?
  }

  /** The switch registered at some time is cancelled later, while it lasts, exactly when it
      was already or a step in between overrode it; what it loads never changes. */
  lemma {:induction false} CancelledExactlyWhen(cfg: Scheduling, st: State, evs: seq<Event>)
    requires Good(cfg) && Inv(cfg, st) && IsRun(cfg, st, evs) && st.flight.Switching? && NoFinish(evs)
    ensures Exec(cfg, st, evs).flight ==
      st.flight.(cancelled := st.flight.cancelled || SomeOverrides(cfg, st, evs))
    decreases |evs|
  {
    hide Inv, Apply, Enabled, Overrides;
    if evs != [] {
      assert !evs[0].Finish?;
      StepOverrides(cfg, st, evs[0]);
      StepInv(cfg, st, evs[0]);
      CancelledExactlyWhen(cfg, Apply(cfg, st, evs[0]), evs[1..]);
    }
  }

  /** While a coding model loads, no request for a background model or for the coding model
      itself cancels the load; while background models load, every request for a coding
      model that can start does, whichever it is. */
  lemma CodingComesFirst(cfg: Scheduling, st: State, id: string, o: Oracle)
    requires Good(cfg) && Inv(cfg, st) && IsGroup(cfg, o.group) && st.flight.Switching? && !st.flight.cancelled
    requires Known(cfg, id) && id != "" && id != PROXY_MODEL_ID && !Runs(st, id) && !BackingOff(st, id)
    ensures var flight := Request(cfg, st, id, o).0.flight;
      && flight.Switching? && flight.ids == st.flight.ids
      && (flight.cancelled <==> At(cfg, id).mode == Coding && !(st.flight.mode == Coding && st.flight.target == id))
  {
    hide Request, Core, CodingOK, Good;
    assert FlightOK(st);
    RequestOverrides(cfg, st, id, o);
  }
}
