/** Which server can a port clean-up kill?  Exactly those in conflict with the model being
    launched: for each such pair there is a run that does it. */
module Ports {
  import opened Text
  import opened Config
  import opened Machine
  import opened Invariants
  import opened Steps
  import opened Moves
  import opened Safety
  import opened Continuity
  import opened Theorems
  import opened Url

  predicate Down(sl: Slot) {
    sl.cmd == 0 && sl.server == 0 && !sl.readyOK && !sl.sleeping
  }

  /** Nothing runs or sleeps, and nobody waits out a failure. */
  ghost predicate AllDown(st: State) {
    (forall x | x in st.procs :: Down(st.procs[x])) && st.nextRestartAt == map[] && st.nextProc > 0
  }

  /** v alone runs. */
  ghost predicate OnlyUp(st: State, v: string) {
    && v in st.procs && st.procs[v].cmd != 0 && st.procs[v].cmd in st.live
    && (forall x | x in st.procs && x != v :: Down(st.procs[x])) && st.nextRestartAt == map[]
  }

  /** The members of the startup set that keep their slots beside v have one. */
  ghost predicate MembersIn(cfg: Scheduling, st: State, v: string) {
    forall x | InGroup(cfg, x) && (At(cfg, v).mode == Coding ==> Survives(cfg, x)) :: x in st.procs
  }

  /** The oracle that starts the commands in starts, with the servers in listening. */
  function Choose(group: seq<string>, starts: set<string>, listening: set<nat>): Oracle {
    Oracle(starts, listening, {}, "", group)
  }

  // Raising one model.

  lemma NoListenersNoVictims(cfg: Scheduling, st: State, id: string, o: Oracle)
    requires o.listening == {}
    ensures FreePort(cfg, st, id, o) == st
  {
    assert PortVictims(cfg, st, id, o) == {};
    assert FreePort(cfg, st, id, o).live == st.live && FreePort(cfg, st, id, o).freed == st.freed;
  }

  lemma LaunchDown(cfg: Scheduling, st: State, id: string, o: Oracle)
    requires AllDown(st) && o.listening == {} && o.starts == {}
    ensures AllDown(Launch(cfg, st, id, o))
  {
    NoListenersNoVictims(cfg, st, id, o);
  }

  lemma {:induction false} TargetsDown(cfg: Scheduling, st: State, ids: seq<string>, o: Oracle)
    requires AllDown(st) && o.listening == {} && o.starts == {}
    ensures AllDown(Targets(cfg, st, ids, o))
    decreases |ids|
  {
    if ids != [] {
      LaunchDown(cfg, st, ids[0], o);
      TargetsDown(cfg, Target(cfg, st, ids[0], o), ids[1..], o);
    }
  }

  lemma LaunchRaises(cfg: Scheduling, st: State, v: string, o: Oracle)
    requires AllDown(st) && o.listening == {} && v in o.starts && At(cfg, v).command != ""
    ensures var st' := Launch(cfg, st, v, o);
      OnlyUp(st', v) && st'.procs.Keys == st.procs.Keys + {v} && st'.codingModel == st.codingModel
  {
    NoListenersNoVictims(cfg, st, v, o);
  }

  lemma AcquireFree(cfg: Scheduling, st: State, id: string, o: Oracle)
    requires Owners(cfg, st, id) == {}
    ensures Acquire(cfg, st, id, o) == Some(st)
  {
  }

  lemma RestartRaises(cfg: Scheduling, st: State, v: string, o: Oracle)
    requires AllDown(st) && NeedRestart(cfg, st, v) && o.listening == {} && v in o.starts
    ensures var st' := Restart(cfg, st, v, o);
      && OnlyUp(st', v) && st'.procs.Keys == st.procs.Keys
      && st'.codingModel == st.codingModel && st'.flight == st.flight
  {
    assert Owners(cfg, st, v) == {};
    AcquireFree(cfg, st, v, o);
    NoListenersNoVictims(cfg, st, v, o);
  }

  // Hitting the one that runs.

  lemma FreeHits(cfg: Scheduling, st: State, k: string, v: string, o: Oracle)
    requires OnlyUp(st, v) && Conflict(cfg, k, v) && st.procs[v].cmd in o.listening
    ensures (k, v) in FreePort(cfg, st, k, o).freed
  {
    assert v in PortVictims(cfg, st, k, o);
  }

  lemma PlaceKeepsFreed(st: State, id: string, started: bool)
    ensures Place(st, id, started).freed == st.freed
  {
  }

  lemma LaunchHits(cfg: Scheduling, st: State, k: string, v: string, o: Oracle)
    requires OnlyUp(st, v) && Conflict(cfg, k, v) && st.procs[v].cmd in o.listening
    ensures (k, v) in Launch(cfg, st, k, o).freed
  {
    FreeHits(cfg, st, k, v, o);
    PlaceKeepsFreed(FreePort(cfg, st, k, o), k, k in o.starts);
  }

  /** No owner stands in the way: v is the only one that runs, on another card. */
  lemma ConflictIsFree(cfg: Scheduling, st: State, k: string, v: string, o: Oracle)
    requires OnlyUp(st, v) && Conflict(cfg, k, v) && !SameCard(cfg, k, v)
    ensures At(cfg, k).gpu != "" ==> Owners(cfg, st, k) == {}
    ensures Acquire(cfg, st, k, o) == Some(st)
  {
    if At(cfg, k).gpu != "" {
      forall x ensures x !in Owners(cfg, st, k) {
        assert Runs(st, x) ==> x == v;
      }
    }
  }

  lemma RestartHits(cfg: Scheduling, st: State, k: string, v: string, o: Oracle)
    requires OnlyUp(st, v) && Conflict(cfg, k, v) && !SameCard(cfg, k, v)
    requires st.procs[v].cmd in o.listening && NeedRestart(cfg, st, k)
    ensures (k, v) in Restart(cfg, st, k, o).freed
  {
    ConflictIsFree(cfg, st, k, v, o);
    FreeHits(cfg, st, k, v, o);
  }

  // The events that launch a model.

  /** The proxy takes the id for that of one model. */
  predicate Askable(id: string) {
    id != "" && id != PROXY_MODEL_ID
  }

  lemma CommandHasURL(cfg: Scheduling, id: string)
    requires Good(cfg) && Known(cfg, id) && At(cfg, id).command != ""
    ensures At(cfg, id).readinessURL != ""
    ensures At(cfg, id).mode == Coding || At(cfg, id).mode == Background
  {
    KnownMode(cfg, id);
  }

  /** A probe visit to a member that is down restarts it. */
  lemma VisitRestarts(cfg: Scheduling, st: State, id: string, o: Oracle)
    requires id in st.procs && Down(st.procs[id]) && At(cfg, id).mode == Background && At(cfg, id).readinessURL != ""
    ensures Visit(cfg, st, id, o) == Restart(cfg, st, id, o)
  {
    hide Restart;
    assert Forgotten(st, id).procs == st.procs;
    assert Forgotten(st, id) == st;
  }

  /** A request for a model outside the startup set launches it beside the others. */
  lemma AskLaunches(cfg: Scheduling, st: State, id: string, o: Oracle)
    requires Good(cfg) && Known(cfg, id) && Askable(id) && At(cfg, id).mode == Background && !InGroup(cfg, id)
    requires st.flight == Idle && !Runs(st, id) && st.nextRestartAt == map[]
    requires CodingRunning(cfg, st) ==> Survives(cfg, id)
    requires var s1 := TouchFor(st, id, Background); Acquire(cfg, s1, id, o) == Some(s1)
    ensures Request(cfg, st, id, o).0 == LaunchAlone(cfg, TouchFor(st, id, Background), id, o)
  {
    hide Acquire, LaunchAlone;
    var s1 := TouchFor(st, id, Background);
    RequestIsGuarded(cfg, st, id, o);
    assert Guarded(cfg, s1, id, o) == EnsureBackground(cfg, s1, id, o);
  }

  /** A request for a coding model switches to it. */
  lemma AskSwitches(cfg: Scheduling, st: State, id: string, o: Oracle)
    requires Good(cfg) && Known(cfg, id) && Askable(id) && At(cfg, id).mode == Coding
    requires st.flight == Idle && !Runs(st, id) && st.nextRestartAt == map[]
    ensures Request(cfg, st, id, o).0 == SwitchTo(cfg, TouchFor(st, id, Coding), [id], Coding, o)
  {
    hide SwitchTo;
    RequestIsGuarded(cfg, st, id, o);
  }

  function Launcher(cfg: Scheduling, id: string, o: Oracle): Event {
    if InGroup(cfg, id) then Visited(id, o) else Ask(id, o)
  }

  lemma LauncherEnabled(cfg: Scheduling, st: State, id: string, o: Oracle)
    requires st.flight == Idle && IsGroup(cfg, o.group)
    ensures Enabled(cfg, st, Launcher(cfg, id, o))
  {
  }

  /** Nothing runs, no switch is under way, and the startup set has its slots. */
  ghost predicate Still(cfg: Scheduling, st: State) {
    && AllDown(st) && st.flight == Idle && st.codingModel == ""
    && forall x :: InGroup(cfg, x) ==> x in st.procs
  }

  /** v runs alone, and the members that may run beside it have their slots. */
  ghost predicate Raised(cfg: Scheduling, st: State, v: string) {
    OnlyUp(st, v) && MembersIn(cfg, st, v)
  }

  lemma SwitchRaises(cfg: Scheduling, st: State, v: string, o: Oracle)
    requires AllDown(st) && o.listening == {} && v in o.starts && At(cfg, v).command != "" && At(cfg, v).mode == Coding
    requires forall x :: InGroup(cfg, x) ==> x in st.procs
    ensures Raised(cfg, SwitchTo(cfg, st, [v], Coding, o), v)
  {
    var s0 := StopAll(cfg, st);
    assert AllDown(s0) && !Runs(s0, v) && !Asleep(s0, v);
    LaunchRaises(cfg, s0, v, o);
    var s1 := Launch(cfg, s0, v, o);
    assert Target(cfg, s0, v, o) == s1;
    assert [v][1..] == [];
    assert Targets(cfg, s0, [v], o) == Targets(cfg, s1, [], o) == s1;
    assert Register(s1, [v], Coding).procs == s1.procs;
    forall x | InGroup(cfg, x) && Survives(cfg, x) ensures x in s1.procs {
      assert x in s0.procs;
    }
  }

  /** A model the scheduler launches on some event. */
  ghost predicate Startable(cfg: Scheduling, id: string) {
    Known(cfg, id) && At(cfg, id).command != "" && (InGroup(cfg, id) || Askable(id))
  }

  lemma MemberLaunch(cfg: Scheduling, st: State, v: string, o: Oracle)
    requires Good(cfg) && KeysOK(cfg, st) && Still(cfg, st) && Startable(cfg, v) && InGroup(cfg, v)
    requires o.listening == {} && v in o.starts
    ensures Raised(cfg, Visit(cfg, st, v, o), v) && Visit(cfg, st, v, o).flight == Idle
  {
    hide Visit;
    CommandHasURL(cfg, v);
    AtKey(cfg, v);
    VisitRestarts(cfg, st, v, o);
    RestartRaises(cfg, st, v, o);
  }

  lemma OnDemandLaunch(cfg: Scheduling, st: State, v: string, o: Oracle)
    requires Good(cfg) && AllDown(st) && st.flight == Idle
    requires Startable(cfg, v) && !InGroup(cfg, v) && At(cfg, v).mode == Background
    requires o.listening == {} && v in o.starts
    ensures OnlyUp(Request(cfg, st, v, o).0, v) && Request(cfg, st, v, o).0.flight.Switching?
    ensures Request(cfg, st, v, o).0.procs.Keys == st.procs.Keys + {v}
    ensures Request(cfg, st, v, o).0.started == st.started && Request(cfg, st, v, o).0.codingModel == st.codingModel
  {
    hide Request, Launch;
    var s1 := TouchFor(st, v, Background);
    assert Owners(cfg, s1, v) == {} && !CodingRunning(cfg, st);
    AcquireFree(cfg, s1, v, o);
    AskLaunches(cfg, st, v, o);
    LaunchRaises(cfg, s1, v, o);
    LaunchKeepsStarted(cfg, s1, v, o);
  }

  lemma LaunchKeepsStarted(cfg: Scheduling, st: State, id: string, o: Oracle)
    ensures Launch(cfg, st, id, o).started == st.started
  {
    hide PortVictims, Listens;
    if At(cfg, id).command != "" {
      assert Launch(cfg, st, id, o) == Place(FreePort(cfg, st, id, o), id, id in o.starts);
    }
  }

  lemma CodingLaunch(cfg: Scheduling, st: State, v: string, o: Oracle)
    requires Good(cfg) && Still(cfg, st) && Startable(cfg, v) && !InGroup(cfg, v) && At(cfg, v).mode == Coding
    requires o.listening == {} && v in o.starts
    ensures Raised(cfg, Request(cfg, st, v, o).0, v) && Request(cfg, st, v, o).0.flight.Switching?
  {
    hide Request;
    AskSwitches(cfg, st, v, o);
    SwitchRaises(cfg, TouchFor(st, v, Coding), v, o);
    SwitchShape(cfg, TouchFor(st, v, Coding), [v], Coding, o);
  }

  lemma LaunchStep(cfg: Scheduling, st: State, v: string, o: Oracle)
    requires Good(cfg) && KeysOK(cfg, st) && Still(cfg, st) && Startable(cfg, v)
    requires o.listening == {} && v in o.starts
    ensures Raised(cfg, Apply(cfg, st, Launcher(cfg, v, o)), v)
    ensures var f := Apply(cfg, st, Launcher(cfg, v, o)).flight; f == Idle || f.Switching?
  {
    hide Request, Visit;
    CommandHasURL(cfg, v);
    if InGroup(cfg, v) {
      MemberLaunch(cfg, st, v, o);
    } else if At(cfg, v).mode == Background {
      OnDemandLaunch(cfg, st, v, o);
    } else {
      CodingLaunch(cfg, st, v, o);
    }
  }

  lemma SwitchHits(cfg: Scheduling, st: State, k: string, v: string, o: Oracle)
    requires OnlyUp(st, v) && Conflict(cfg, k, v) && st.procs[v].cmd in o.listening && At(cfg, k).mode == Coding
    ensures (k, v) in SwitchTo(cfg, st, [k], Coding, o).freed
  {
    var s0 := StopAll(cfg, st);
    assert OnlyUp(s0, v) && s0.procs[v] == st.procs[v];
    assert !Runs(s0, k) && !Asleep(s0, k);
    LaunchHits(cfg, s0, k, v, o);
    var s1 := Launch(cfg, s0, k, o);
    assert Target(cfg, s0, k, o) == s1;
    assert [k][1..] == [];
    assert Targets(cfg, s0, [k], o) == Targets(cfg, s1, [], o) == s1;
  }

  lemma MemberStrike(cfg: Scheduling, st: State, k: string, v: string, o: Oracle)
    requires Good(cfg) && KeysOK(cfg, st) && Raised(cfg, st, v)
    requires Conflict(cfg, k, v) && !SameCard(cfg, k, v) && InGroup(cfg, k) && st.procs[v].cmd in o.listening
    ensures (k, v) in Visit(cfg, st, k, o).freed
  {
    hide Visit;
    CommandHasURL(cfg, k);
    AtKey(cfg, k);
    VisitRestarts(cfg, st, k, o);
    RestartHits(cfg, st, k, v, o);
  }

  lemma OnDemandStrike(cfg: Scheduling, st: State, k: string, v: string, o: Oracle)
    requires Good(cfg) && Raised(cfg, st, v) && st.flight == Idle
    requires Conflict(cfg, k, v) && Startable(cfg, k) && !InGroup(cfg, k) && At(cfg, k).mode == Background
    requires st.procs[v].cmd in o.listening
    ensures (k, v) in Request(cfg, st, k, o).0.freed
  {
    hide Request, Launch;
    var s1 := TouchFor(st, k, Background);
    if CodingRunning(cfg, st) {
      var x :| x in st.procs && Runs(st, x) && At(cfg, x).mode == Coding;
      assert x == v;
    }
    ConflictIsFree(cfg, s1, k, v, o);
    AskLaunches(cfg, st, k, o);
    LaunchHits(cfg, s1, k, v, o);
  }

  lemma CodingStrike(cfg: Scheduling, st: State, k: string, v: string, o: Oracle)
    requires Good(cfg) && Raised(cfg, st, v) && st.flight == Idle
    requires Conflict(cfg, k, v) && Startable(cfg, k) && !InGroup(cfg, k) && At(cfg, k).mode == Coding
    requires st.procs[v].cmd in o.listening
    ensures (k, v) in Request(cfg, st, k, o).0.freed
  {
    hide Request, SwitchTo;
    AskSwitches(cfg, st, k, o);
    SwitchHits(cfg, TouchFor(st, k, Coding), k, v, o);
  }

  lemma StrikeStep(cfg: Scheduling, st: State, k: string, v: string, o: Oracle)
    requires Good(cfg) && KeysOK(cfg, st) && Raised(cfg, st, v) && st.flight == Idle
    requires Conflict(cfg, k, v) && !SameCard(cfg, k, v) && Startable(cfg, k) && st.procs[v].cmd in o.listening
    ensures (k, v) in Apply(cfg, st, Launcher(cfg, k, o)).freed
  {
    hide Request, Visit, Conflict, OnlyUp;
    CommandHasURL(cfg, k);
    if InGroup(cfg, k) {
      MemberStrike(cfg, st, k, v, o);
    } else if At(cfg, k).mode == Background {
      OnDemandStrike(cfg, st, k, v, o);
    } else {
      CodingStrike(cfg, st, k, v, o);
    }
  }

  // The run: start up, raise v, strike it by launching k.

  lemma Settles(cfg: Scheduling, st: State, o: Oracle)
    requires st.flight.Switching?
    ensures Enabled(cfg, st, Finish([], o)) && Apply(cfg, st, Finish([], o)) == st.(flight := Idle)
  {
  }

  lemma StartsStill(cfg: Scheduling, o: Oracle)
    requires IsGroup(cfg, o.group) && o.starts == {} && o.listening == {}
    ensures var st := Apply(cfg, INIT, Start(o)); Still(cfg, st.(flight := Idle)) && (st.flight == Idle || st.flight.Switching?)
  {
    if o.group != [] {
      assert AllDown(StopAll(cfg, INIT));
      TargetsDown(cfg, StopAll(cfg, INIT), o.group, o);
      SwitchShape(cfg, INIT, o.group, Background, o);
    }
  }

  /** Every request of the run is for one of ids, spelled so. */
  ghost predicate AsksOnly(evs: seq<Event>, ids: set<string>)
    decreases |evs|
  {
    evs == [] || ((evs[0].Ask? ==> evs[0].id in ids) && AsksOnly(evs[1..], ids))
  }

  lemma {:induction false} AsksOnlyJoin(evs: seq<Event>, ev: Event, ids: set<string>)
    requires AsksOnly(evs, ids) && (ev.Ask? ==> ev.id in ids)
    ensures AsksOnly(evs + [ev], ids)
    decreases |evs|
  {
    if evs == [] {
      assert evs + [ev] == [ev] && [ev][1..] == [];
    } else {
      AsksOnlyJoin(evs[1..], ev, ids);
      assert (evs + [ev])[0] == evs[0] && (evs + [ev])[1..] == evs[1..] + [ev];
    }
  }

  lemma {:induction false} AsksOnlyTrimmed(evs: seq<Event>, ids: set<string>)
    requires AsksOnly(evs, ids) && forall id :: id in ids ==> TrimSpace(id) == id
    ensures Canonical(evs)
    decreases |evs|
  {
    if evs != [] {
      AsksOnlyTrimmed(evs[1..], ids);
    }
  }

  /** Extends a run by one event, and by the end of the switch if there is one. */
  lemma ThenSettle(cfg: Scheduling, evs: seq<Event>, ev: Event, o: Oracle, ids: set<string>) returns (more: seq<Event>)
    requires Legal(cfg, evs) && Enabled(cfg, Reached(cfg, evs), ev)
    requires AsksOnly(evs, ids) && (ev.Ask? ==> ev.id in ids)
    requires var f := Apply(cfg, Reached(cfg, evs), ev).flight; f == Idle || f.Switching?
    ensures Legal(cfg, more) && Reached(cfg, more) == Apply(cfg, Reached(cfg, evs), ev).(flight := Idle)
    ensures AsksOnly(more, ids)
  {
    hide Apply, Enabled;
    RunExtends(cfg, INIT, evs, ev);
    AsksOnlyJoin(evs, ev, ids);
    more := evs + [ev];
    var st := Apply(cfg, Reached(cfg, evs), ev);
    if st.flight.Switching? {
      Settles(cfg, st, o);
      RunExtends(cfg, INIT, more, Finish([], o));
      AsksOnlyJoin(more, Finish([], o), ids);
      more := more + [Finish([], o)];
    }
  }

  lemma StartEnabled(cfg: Scheduling, st: State, o: Oracle)
    requires IsGroup(cfg, o.group) && !st.started && st.flight == Idle
    ensures Enabled(cfg, st, Start(o))
  {
  }

  /** Started, with every command failing to start. */
  lemma StillRun(cfg: Scheduling, group: seq<string>, ids: set<string>) returns (evs: seq<Event>)
    requires Good(cfg) && IsGroup(cfg, group)
    ensures Legal(cfg, evs) && Still(cfg, Reached(cfg, evs)) && AsksOnly(evs, ids)
  {
    hide Apply, Enabled, Still;
    var o := Choose(group, {}, {});
    StartsStill(cfg, o);
    StartEnabled(cfg, INIT, o);
    evs := ThenSettle(cfg, [], Start(o), o, ids);
  }

  lemma RaisedIdle(cfg: Scheduling, st: State, v: string)
    requires Raised(cfg, st, v)
    ensures Raised(cfg, st.(flight := Idle), v)
  {
  }

  lemma LauncherName(cfg: Scheduling, id: string, o: Oracle)
    ensures var ev := Launcher(cfg, id, o); ev.Ask? ==> ev.id == id
  {
  }

  /** And v raised. */
  lemma RaisedRun(cfg: Scheduling, evs: seq<Event>, group: seq<string>, v: string, ids: set<string>) returns (more: seq<Event>)
    requires Good(cfg) && IsGroup(cfg, group) && Startable(cfg, v) && v in ids
    requires Legal(cfg, evs) && Still(cfg, Reached(cfg, evs)) && AsksOnly(evs, ids)
    ensures Legal(cfg, more) && Raised(cfg, Reached(cfg, more), v) && Reached(cfg, more).flight == Idle
    ensures AsksOnly(more, ids)
  {
    hide Apply, Enabled, Raised, Launcher, Startable, Reached, Legal, AsksOnly;
    var st, o := Reached(cfg, evs), Choose(group, {v}, {});
    ReachedInv(cfg, evs);
    LauncherEnabled(cfg, st, v, o);
    LauncherName(cfg, v, o);
    LaunchStep(cfg, st, v, o);
    RaisedIdle(cfg, Apply(cfg, st, Launcher(cfg, v, o)), v);
    more := ThenSettle(cfg, evs, Launcher(cfg, v, o), o, ids);
  }

  /** Two models on different cards: start up, raise v, launch k. */
  lemma PlainConflict(cfg: Scheduling, group: seq<string>, k: string, v: string) returns (evs: seq<Event>)
    requires Good(cfg) && IsGroup(cfg, group)
    requires Conflict(cfg, k, v) && !SameCard(cfg, k, v) && Startable(cfg, k) && Startable(cfg, v)
    ensures Legal(cfg, evs) && (k, v) in Reached(cfg, evs).freed && AsksOnly(evs, {k, v})
  {
    hide Apply, Enabled, Conflict, Still, Launcher, Startable, AsksOnly;
    var e0 := StillRun(cfg, group, {k, v});
    var e1 := RaisedRun(cfg, e0, group, v, {k, v});
    var st := Reached(cfg, e1);
    ReachedInv(cfg, e1);
    var o := Choose(group, {}, {st.procs[v].cmd});
    LauncherEnabled(cfg, st, k, o);
    LauncherName(cfg, k, o);
    StrikeStep(cfg, st, k, v, o);
    RunExtends(cfg, INIT, e1, Launcher(cfg, k, o));
    AsksOnlyJoin(e1, Launcher(cfg, k, o), {k, v});
    evs := e1 + [Launcher(cfg, k, o)];
  }

  // A resident startup member and its shadow: the shadow is asked for before the startup
  // switch, which spares it and launches the member without arbitration.

  lemma LaunchKeepsFreed(cfg: Scheduling, st: State, id: string, o: Oracle)
    ensures st.freed <= Launch(cfg, st, id, o).freed
  {
    if At(cfg, id).command != "" {
      PlaceKeepsFreed(FreePort(cfg, st, id, o), id, id in o.starts);
    }
  }

  lemma {:induction false} TargetsKeepFreed(cfg: Scheduling, st: State, ids: seq<string>, o: Oracle)
    ensures st.freed <= Targets(cfg, st, ids, o).freed
    decreases |ids|
  {
    hide Launch;
    if ids != [] {
      LaunchKeepsFreed(cfg, st, ids[0], o);
      TargetsKeepFreed(cfg, Target(cfg, st, ids[0], o), ids[1..], o);
    }
  }

  lemma OnlyUpStops(cfg: Scheduling, st: State, v: string)
    requires OnlyUp(st, v) && Survives(cfg, v)
    ensures OnlyUp(StopAll(cfg, st), v) && StopAll(cfg, st).procs[v] == st.procs[v]
  {
  }

  /** The startup switch that lists k first strikes its running shadow. */
  lemma GroupHits(cfg: Scheduling, st: State, k: string, v: string, o: Oracle)
    requires OnlyUp(st, v) && Survives(cfg, v) && Conflict(cfg, k, v) && st.procs[v].cmd in o.listening
    requires o.group != [] && o.group[0] == k
    ensures (k, v) in GroupSwitch(cfg, st, o).freed
  {
    hide Launch, Conflict, StopAll;
    OnlyUpStops(cfg, st, v);
    var s0 := StopAll(cfg, st);
    assert k != v by { ConflictApart(cfg, k, v); }
    assert !Runs(s0, k) && !Asleep(s0, k);
    LaunchHits(cfg, s0, k, v, o);
    var s1 := Launch(cfg, s0, k, o);
    assert Target(cfg, s0, k, o) == s1;
    TargetsKeepFreed(cfg, s1, o.group[1..], o);
    assert Targets(cfg, s0, o.group, o) == Targets(cfg, s1, o.group[1..], o);
  }

  lemma ConflictApart(cfg: Scheduling, k: string, v: string)
    requires Conflict(cfg, k, v)
    ensures k != v
  {
  }

  /** A run that has done nothing but raise v, which is outside the startup set. */
  lemma FirstRaised(cfg: Scheduling, group: seq<string>, v: string) returns (evs: seq<Event>)
    requires Good(cfg) && IsGroup(cfg, group) && Startable(cfg, v) && !InGroup(cfg, v) && At(cfg, v).mode == Background
    ensures Legal(cfg, evs) && AsksOnly(evs, {v})
    ensures var st := Reached(cfg, evs);
      OnlyUp(st, v) && st.flight == Idle && !st.started && st.procs.Keys == {v} && st.codingModel == ""
  {
    hide Apply, Enabled;
    var o := Choose(group, {v}, {});
    assert AllDown(INIT);
    OnDemandLaunch(cfg, INIT, v, o);
    AskApplies(cfg, INIT, v, o);
    evs := ThenSettle(cfg, [], Ask(v, o), o, {v});
  }

  lemma AskApplies(cfg: Scheduling, st: State, id: string, o: Oracle)
    requires IsGroup(cfg, o.group)
    ensures Enabled(cfg, st, Ask(id, o)) && Apply(cfg, st, Ask(id, o)) == Request(cfg, st, id, o).0
  {
  }

  lemma StartApplies(cfg: Scheduling, st: State, o: Oracle)
    requires IsGroup(cfg, o.group) && !st.started && st.flight == Idle
    ensures Enabled(cfg, st, Start(o)) && Apply(cfg, st, Start(o)) == GroupSwitch(cfg, st, o).(started := true)
  {
  }

  lemma ShadowConflict(cfg: Scheduling, group: seq<string>, k: string, v: string) returns (evs: seq<Event>)
    requires Good(cfg) && IsGroup(cfg, group) && group != [] && group[0] == k
    requires Conflict(cfg, k, v) && SameCard(cfg, k, v) && Startable(cfg, v)
    ensures Legal(cfg, evs) && (k, v) in Reached(cfg, evs).freed && AsksOnly(evs, {k, v})
  {
    hide Apply, Enabled, Conflict, GroupSwitch;
    ShadowSurvives(cfg, k, v);
    var e0 := FirstRaised(cfg, group, v);
    AsksMore(e0, {v}, {k, v});
    var st := Reached(cfg, e0);
    var o := Choose(group, {}, {st.procs[v].cmd});
    GroupHits(cfg, st, k, v, o);
    StartApplies(cfg, st, o);
    RunExtends(cfg, INIT, e0, Start(o));
    AsksOnlyJoin(e0, Start(o), {k, v});
    evs := e0 + [Start(o)];
  }

  lemma ShadowSurvives(cfg: Scheduling, k: string, v: string)
    requires Good(cfg) && Conflict(cfg, k, v) && SameCard(cfg, k, v)
    ensures Shadows(cfg, k, v) && Survives(cfg, v) && !InGroup(cfg, v) && At(cfg, v).mode == Background
  {
    ShadowEntry(cfg, k, v);
    AtKey(cfg, k);
  }

  lemma {:induction false} AsksMore(evs: seq<Event>, few: set<string>, more: set<string>)
    requires AsksOnly(evs, few) && few <= more
    ensures AsksOnly(evs, more)
    decreases |evs|
  {
    if evs != [] {
      AsksMore(evs[1..], few, more);
    }
  }

  // The characterisation.

  lemma {:induction false} Enumerate(s: set<string>) returns (ids: seq<string>)
    ensures forall id :: id in ids <==> id in s
    ensures forall i, j :: 0 <= i < j < |ids| ==> ids[i] != ids[j]
    decreases s
  {
    ids := [];
    if s != {} {
      var id :| id in s;
      ids := Enumerate(s - {id});
      ids := ids + [id];
    }
  }

  /** The startup set in some order, with first in front if it is a member. */
  lemma ListGroup(cfg: Scheduling, first: string) returns (group: seq<string>)
    ensures IsGroup(cfg, group) && (InGroup(cfg, first) ==> group != [] && group[0] == first)
  {
    var members := set id | id in cfg.models && InGroup(cfg, id);
    if InGroup(cfg, first) {
      var rest := Enumerate(members - {first});
      group := [first] + rest;
      forall i, j | 0 <= i < j < |group| ensures group[i] != group[j] {
        if i == 0 {
          assert rest[j - 1] in rest;
        }
      }
    } else {
      group := Enumerate(members);
    }
  }

  /** Every conflict comes true: some run frees the port for k and kills v's server, and
      it asks for nothing but k and v. */
  lemma ConflictComesTrue(cfg: Scheduling, k: string, v: string) returns (evs: seq<Event>)
    requires Good(cfg) && Conflict(cfg, k, v) && Startable(cfg, k) && Startable(cfg, v)
    ensures Legal(cfg, evs) && (k, v) in Reached(cfg, evs).freed && AsksOnly(evs, {k, v})
  {
    hide Conflict, Startable, Legal, Reached;
    var group := ListGroup(cfg, k);
    if SameCard(cfg, k, v) {
      ShadowSurvives(cfg, k, v);
      evs := ShadowConflict(cfg, group, k, v);
    } else {
      evs := PlainConflict(cfg, group, k, v);
    }
  }

  /** The port clean-up for k kills v's server in some run, if and only if the two share a
      port and k may be launched while v runs.  k and v may be spelled in any way. */
  lemma KillsExactlyConflicts(cfg: Scheduling, k: string, v: string)
    requires Good(cfg) && Startable(cfg, k) && Startable(cfg, v)
    ensures (exists evs | Legal(cfg, evs) :: (k, v) in Reached(cfg, evs).freed) <==> Conflict(cfg, k, v)
  {
    hide Conflict, Legal, Reached, Startable;
    if Conflict(cfg, k, v) {
      var evs := ConflictComesTrue(cfg, k, v);
    }
    if exists evs | Legal(cfg, evs) :: (k, v) in Reached(cfg, evs).freed {
      var evs :| Legal(cfg, evs) && (k, v) in Reached(cfg, evs).freed;
      ReachedSafe(cfg, evs);
    }
  }

  /** Every model with a command can be launched by some event. */
  ghost predicate AllStartable(cfg: Scheduling) {
    forall id | Known(cfg, id) && At(cfg, id).command != "" :: Startable(cfg, id)
  }

  /** That only asks that no model is named like the proxy itself, or not at all. */
  lemma NamesMakeStartable(cfg: Scheduling)
    requires KeysTrimmed(cfg)
    requires forall id | id in cfg.models && !InGroup(cfg, id) :: Askable(id)
    ensures AllStartable(cfg)
  {
    forall id | Known(cfg, id) && At(cfg, id).command != "" ensures Startable(cfg, id) {
      if TrimSpace(id) != id {
        TrimSpaceTrims("");
        TrimSpaceTrims(PROXY_MODEL_ID);
      }
    }
  }

  predicate IsBackground(cfg: Scheduling, id: string) { At(cfg, id).mode == Background }

  /** Runs whose requests spell ids as configured, or any runs. */
  ghost predicate Admitted(cfg: Scheduling, evs: seq<Event>, asSpelled: bool) {
    Legal(cfg, evs) && (asSpelled ==> Canonical(evs))
  }

  lemma ConflictAdmitted(cfg: Scheduling, k: string, v: string, asSpelled: bool) returns (evs: seq<Event>)
    requires Good(cfg) && AllStartable(cfg) && Conflict(cfg, k, v) && Spelling(k, asSpelled) && Spelling(v, asSpelled)
    ensures Admitted(cfg, evs, asSpelled) && (k, v) in Reached(cfg, evs).freed
  {
    hide Legal, Reached;
    evs := ConflictComesTrue(cfg, k, v);
    if asSpelled {
      AsksOnlyTrimmed(evs, {k, v});
    }
  }

  /** Freed pairs conflict, and in runs that spell ids as configured both go by their ids. */
  lemma AdmittedConflict(cfg: Scheduling, evs: seq<Event>, k: string, v: string, asSpelled: bool)
    requires Good(cfg) && Admitted(cfg, evs, asSpelled) && (k, v) in Reached(cfg, evs).freed
    ensures Conflict(cfg, k, v) && Spelling(k, asSpelled) && Spelling(v, asSpelled)
  {
    hide Conflict;
    ReachedSafe(cfg, evs);
    if asSpelled {
      ReachedProper(cfg, evs);
    }
  }

  // What that means for background servers, and for survivors.

  ghost predicate BackgroundsSafe(cfg: Scheduling, asSpelled: bool) {
    forall evs, k, v | Admitted(cfg, evs, asSpelled) && (k, v) in Reached(cfg, evs).freed ::
      !(IsBackground(cfg, k) && IsBackground(cfg, v))
  }

  /** No background model can be launched a second time, under another spelling, while it
      listens: it declares a GPU and is not a resident member of the startup set. */
  ghost predicate NoSelfClash(cfg: Scheduling) {
    forall m | m in cfg.models && cfg.models[m].mode == Background && cfg.models[m].command != "" && cfg.models[m].port > 0 ::
      cfg.models[m].gpu != "" && !(cfg.models[m].resident && cfg.models[m].autostart)
  }

  /** No run kills one background server to launch another background model, if and only
      if any two background models of one port declare one GPU, and, unless requests spell
      ids as configured, no model clashes with itself. */
  lemma BackgroundsSafeExactlyWhen(cfg: Scheduling, asSpelled: bool)
    requires Good(cfg) && AllStartable(cfg)
    ensures BackgroundsSafe(cfg, asSpelled) <==> NoPortClash(cfg) && (asSpelled || NoSelfClash(cfg))
  {
    hide Legal, Reached, Conflict, AllStartable, Admitted, NoPortClash, NoSelfClash;
    if NoPortClash(cfg) && (asSpelled || NoSelfClash(cfg)) {
      forall evs, k, v | Admitted(cfg, evs, asSpelled) && (k, v) in Reached(cfg, evs).freed
        ensures !(IsBackground(cfg, k) && IsBackground(cfg, v))
      {
        AdmittedConflict(cfg, evs, k, v, asSpelled);
        ClashIsConflict(cfg, k, v, asSpelled);
      }
    } else if !NoPortClash(cfg) {
      var a, b := FindClash(cfg);
      var evs := ConflictAdmitted(cfg, a, b, asSpelled);
    } else {
      var a, b := FindSelfClash(cfg);
      var evs := ConflictAdmitted(cfg, a, b, asSpelled);
    }
  }

  lemma ClashIsConflict(cfg: Scheduling, k: string, v: string, asSpelled: bool)
    requires Good(cfg) && NoPortClash(cfg) && (asSpelled || NoSelfClash(cfg))
    requires Conflict(cfg, k, v) && Spelling(k, asSpelled) && Spelling(v, asSpelled)
    ensures !(IsBackground(cfg, k) && IsBackground(cfg, v))
  {
    var a, b := TrimSpace(k), TrimSpace(v);
    assert At(cfg, k) == cfg.models[a] && At(cfg, v) == cfg.models[b];
  }

  lemma FindClash(cfg: Scheduling) returns (a: string, b: string)
    requires KeysTrimmed(cfg) && !NoPortClash(cfg)
    ensures Conflict(cfg, a, b) && IsBackground(cfg, a) && IsBackground(cfg, b)
    ensures TrimSpace(a) == a && TrimSpace(b) == b
  {
    a, b :| a in cfg.models && b in cfg.models && a != b
      && cfg.models[a].mode == Background && cfg.models[b].mode == Background
      && cfg.models[a].command != "" && cfg.models[b].command != ""
      && cfg.models[a].port > 0 && cfg.models[a].port == cfg.models[b].port
      && !(cfg.models[a].gpu != "" && cfg.models[a].gpu == cfg.models[b].gpu);
    AtKey(cfg, a);
    AtKey(cfg, b);
  }

  /** The id with a blank behind it: another spelling of m. */
  function Blanked(m: string): string { m + " " }

  lemma BlankedKnown(cfg: Scheduling, m: string)
    requires KeysTrimmed(cfg) && m in cfg.models
    ensures Blanked(m) != m && TrimSpace(Blanked(m)) == m && Known(cfg, Blanked(m)) && Known(cfg, m)
    ensures At(cfg, Blanked(m)) == At(cfg, m) == cfg.models[m] && Blanked(m) !in cfg.models
  {
    TrimSpaceTrims(m);
    TrimBlank(m);
  }

  lemma FindSelfClash(cfg: Scheduling) returns (a: string, b: string)
    requires KeysTrimmed(cfg) && !NoSelfClash(cfg)
    ensures Conflict(cfg, a, b) && IsBackground(cfg, a) && IsBackground(cfg, b)
  {
    var m :| m in cfg.models && cfg.models[m].mode == Background && cfg.models[m].command != "" && cfg.models[m].port > 0
      && !(cfg.models[m].gpu != "" && !(cfg.models[m].resident && cfg.models[m].autostart));
    BlankedKnown(cfg, m);
    a, b := m, Blanked(m);
  }

  /** A survivor's server is never killed by a port clean-up, if and only if the survivor
      is pinned: nothing such runs bring up may be launched beside it on its port. */
  lemma SurvivorSafeExactlyWhen(cfg: Scheduling, id: string, asSpelled: bool)
    requires Good(cfg) && AllStartable(cfg) && Known(cfg, id) && Survives(cfg, id) && Spelling(id, asSpelled)
    ensures Pinned(cfg, id, asSpelled) <==>
      forall evs, k | Admitted(cfg, evs, asSpelled) :: (k, id) !in Reached(cfg, evs).freed
  {
    hide Legal, Reached, Conflict, AllStartable, Admitted;
    if Pinned(cfg, id, asSpelled) {
      forall evs, k | Admitted(cfg, evs, asSpelled) ensures (k, id) !in Reached(cfg, evs).freed {
        if (k, id) in Reached(cfg, evs).freed {
          AdmittedConflict(cfg, evs, k, id, asSpelled);
          assert false;
        }
      }
    } else {
      var k :| Spelling(k, asSpelled) && Conflict(cfg, k, id);
      var evs := ConflictAdmitted(cfg, k, id, asSpelled);
    }
  }

  /** With the validators' checks, and one spelling per port, only a coding model can take
      a survivor's port, or, under another spelling, a GPU-less survivor itself. */
  lemma PinnedWhenAccepted(cfg: Scheduling, id: string, asSpelled: bool)
    requires Good(cfg) && BackgroundOriginsAccepted(cfg) && PortsNameOrigins(cfg)
    requires id in cfg.models && Survives(cfg, id) && At(cfg, id).command != "" && At(cfg, id).port > 0
    ensures Pinned(cfg, id, asSpelled) <==>
      && (asSpelled || At(cfg, id).gpu != "")
      && forall c | c in cfg.models && At(cfg, c).mode == Coding && At(cfg, c).command != "" :: At(cfg, c).port != At(cfg, id).port
  {
    AtKey(cfg, id);
    BlankedKnown(cfg, id);
    forall k | Known(cfg, k) && TrimSpace(k) != id && At(cfg, k).mode != Coding ensures !Conflict(cfg, k, id) {
      OthersKeepOff(cfg, k, id);
    }
    forall c | Known(cfg, c) && At(cfg, c).mode == Coding
      ensures Conflict(cfg, c, id) <==> At(cfg, c).command != "" && At(cfg, c).port == At(cfg, id).port
    {
      CodingBesideSurvivor(cfg, c, id);
    }
    forall k | Known(cfg, k) && TrimSpace(k) == id ensures Conflict(cfg, k, id) <==> k != id && At(cfg, id).gpu == "" {
    }
    forall c | c in cfg.models ensures TrimSpace(c) == c {
    }
  }

  lemma OthersKeepOff(cfg: Scheduling, k: string, id: string)
    requires Good(cfg) && BackgroundOriginsAccepted(cfg) && PortsNameOrigins(cfg)
    requires id in cfg.models && Survives(cfg, id) && Known(cfg, k) && TrimSpace(k) != id && At(cfg, k).mode != Coding
    ensures !Conflict(cfg, k, id)
  {
    AtKey(cfg, id);
    var a := TrimSpace(k);
    assert At(cfg, k) == cfg.models[a];
  }

  lemma CodingBesideSurvivor(cfg: Scheduling, c: string, id: string)
    requires Good(cfg) && Known(cfg, c) && Known(cfg, id) && At(cfg, c).mode == Coding && Survives(cfg, id)
    ensures MayJoin(cfg, c, id)
  {
  }

  // The validator compares origins as text, a port clean-up ports as numbers.

  /** Two background models at addresses of one port, however the addresses are spelled,
      and not on one GPU: some run kills one server to launch the other. */
  lemma SpelledApart(cfg: Scheduling, a: string, b: string, x: Address, y: Address)
    requires Good(cfg) && AllStartable(cfg) && AllParsed(cfg)
    requires a in cfg.models && b in cfg.models && a != b && x.Valid() && y.Valid()
    requires cfg.models[a].readinessURL == x.Printed() && cfg.models[b].readinessURL == y.Printed()
    requires 0 < Number(x.port) == Number(y.port) <= MAX_INT
    requires cfg.models[a].mode == Background && cfg.models[b].mode == Background
    requires cfg.models[a].command != "" && cfg.models[b].command != ""
    requires cfg.models[a].gpu != "" ==> cfg.models[a].gpu != cfg.models[b].gpu
    ensures exists evs, k, v | Admitted(cfg, evs, true) && (k, v) in Reached(cfg, evs).freed ::
      IsBackground(cfg, k) && IsBackground(cfg, v)
    ensures cfg.models[a].origin == cfg.models[b].origin <==> Lower(x.scheme) == Lower(y.scheme) && x.host == y.host && x.port == y.port
  {
    hide Admitted, Reached, AllStartable, Number, OriginOf, PortOf;
    ReadOff(x);
    ReadOff(y);
    OriginsAgreeExactlyWhen(x, y);
    BackgroundsSafeExactlyWhen(cfg, true);
  }

  const BY_NUMBER := "http://127.0.0.1:8080/health"
  const BY_NAME := "http://localhost:8080/health"

  function Server(url: string): Process {
    Process("serve", Background, url, OriginOf(url), PortOf(url), true, false, false, 0, "")
  }

  const LOOPBACK := Scheduling(map["chat" := Server(BY_NUMBER), "embed" := Server(BY_NAME)], 0)

  const NUMBER_ADDRESS := Address("http", "", "127.0.0.1", "8080", "/health")
  const NAME_ADDRESS := Address("http", "", "localhost", "8080", "/health")

  lemma AddressesValid()
    ensures NUMBER_ADDRESS.Valid() && NAME_ADDRESS.Valid()
  {
  }

  lemma PrintsNumber()
    ensures NUMBER_ADDRESS.Printed() == BY_NUMBER
  {
    hide Address.Valid, OriginOf, PortOf;
    assert NUMBER_ADDRESS.Authority() == "127.0.0.1:8080";
    assert "http" + ("://" + ("127.0.0.1:8080" + "/health")) == "http://127.0.0.1:8080/health";
  }

  lemma PrintsName()
    ensures NAME_ADDRESS.Printed() == BY_NAME
  {
    hide Address.Valid, OriginOf, PortOf;
    assert NAME_ADDRESS.Authority() == "localhost:8080";
    assert "http" + ("://" + ("localhost:8080" + "/health")) == "http://localhost:8080/health";
  }

  lemma PortNumber()
    ensures Number("8080") == 8080
  {
    assert "8"[..0] == "" && "80"[..1] == "8" && "808"[..2] == "80" && "8080"[..3] == "808";
    assert Number("") == 0;
    assert Number("8") == 8;
    assert Number("80") == 80;
    assert Number("808") == 808;
  }

  lemma LoopbackKeys()
    ensures KeysTrimmed(LOOPBACK)
  {
    hide OriginOf, PortOf;
    TrimSpaceTrims("chat");
    TrimSpaceTrims("embed");
  }

  lemma LoopbackStarts()
    ensures AllStartable(LOOPBACK)
  {
    hide AllStartable;
    LoopbackKeys();
    NamesMakeStartable(LOOPBACK);
  }

  lemma LoopbackAccepted()
    ensures SchedulingAccepted(LOOPBACK) && BackgroundOriginsAccepted(LOOPBACK) && AllParsed(LOOPBACK)
  {
    hide OriginOf, PortOf, Address.Valid, Address.Printed;
    AddressesValid();
    PrintsNumber();
    PrintsName();
    OriginsAgreeExactlyWhen(NUMBER_ADDRESS, NAME_ADDRESS);
    assert TrimSpace(BY_NUMBER) != "" && TrimSpace(BY_NAME) != "" by {
      TrimSpaceTrims(BY_NUMBER);
      TrimSpaceTrims(BY_NAME);
    }
  }

  /** Two background members at 127.0.0.1:8080 and at localhost:8080 pass both validators,
      and some run in which ids are spelled as configured kills one server for the other. */
  lemma SpellingsSlipThrough()
    ensures KeysTrimmed(LOOPBACK) && SchedulingAccepted(LOOPBACK) && BackgroundOriginsAccepted(LOOPBACK)
    ensures AllParsed(LOOPBACK) && AllStartable(LOOPBACK)
    ensures exists evs, k, v | Admitted(LOOPBACK, evs, true) && (k, v) in Reached(LOOPBACK, evs).freed ::
      IsBackground(LOOPBACK, k) && IsBackground(LOOPBACK, v)
  {
    hide Admitted, Reached, AllStartable, Number, OriginOf, PortOf;
    hide SchedulingAccepted, BackgroundOriginsAccepted, AllParsed, KeysTrimmed, Address.Valid, Address.Printed;
    LoopbackKeys();
    LoopbackAccepted();
    LoopbackStarts();
    AddressesValid();
    PrintsNumber();
    PrintsName();
    PortNumber();
    SpelledApart(LOOPBACK, "chat", "embed", NUMBER_ADDRESS, NAME_ADDRESS);
  }
}
