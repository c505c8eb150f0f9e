/** Requests whose id is written with edge white space.  Entry trims before it looks an
    entry up, the slot table does not, so one model can come to have two slots.  When it
    does, what that breaks, and for which configurations. */
module Aliases {
  import opened Text
  import opened Config
  import opened Machine
  import opened Invariants
  import opened Steps
  import opened Requests
  import opened Safety
  import opened Theorems
  import opened Ports

  // When a model gets a second slot.

  /** Nothing stands in the way of launching id now, outside the startup set: the proxy's
      guard lets it pass, it is not backing off, no switch is under way, and whoever holds
      its card may be evicted. */
  ghost predicate MayLaunchNow(cfg: Scheduling, st: State, id: string) {
    && st.flight == Idle && !BackoffActive(st, id)
    && (At(cfg, id).mode == Coding || (
          && (Survives(cfg, id) || !CodingRunning(cfg, st))
          && (At(cfg, id).gpu == "" || forall v | v in Owners(cfg, st, id) :: !At(cfg, v).resident)))
  }

  lemma AcquiresExactlyWhen(cfg: Scheduling, st: State, id: string, o: Oracle)
    requires Core(cfg, st)
    ensures Acquire(cfg, st, id, o).Some? <==>
      At(cfg, id).gpu == "" || forall v | v in Owners(cfg, st, id) :: !At(cfg, v).resident
  {
    if At(cfg, id).gpu != "" && Owners(cfg, st, id) != {} {
      ScanSuffices(cfg, st, id, o);
      var v := FirstOwner(cfg, st, id, o);
      forall x | x in Owners(cfg, st, id) && x != v ensures At(cfg, v).resident {
        SecondOwner(cfg, st, id, v, x);
      }
    }
  }

  lemma AloneGranted(cfg: Scheduling, st: State, id: string, o: Oracle)
    ensures AfterSwitch(LaunchAlone(cfg, st, id, o), id).1.Granted?
    ensures id in LaunchAlone(cfg, st, id, o).procs
  {
    LaunchShape(cfg, st, id, o);
  }

  lemma CodingGranted(cfg: Scheduling, st: State, id: string, o: Oracle)
    requires !Asleep(st, id)
    ensures AfterSwitch(SwitchTo(cfg, st, [id], Coding, o), id).1.Granted?
    ensures id in SwitchTo(cfg, st, [id], Coding, o).procs
  {
    var s1 := Targets(cfg, StopAll(cfg, st), [id], o);
    SwitchShape(cfg, st, [id], Coding, o);
    assert id in [id] && Register(s1, [id], Coding).procs == s1.procs;
  }

  lemma OnDemandSlot(cfg: Scheduling, st: State, id: string, o: Oracle)
    requires Good(cfg) && Inv(cfg, st) && Known(cfg, id) && id !in st.procs && At(cfg, id).mode == Background
    requires CodingRunning(cfg, st) ==> Survives(cfg, id)
    ensures var r := EnsureOnDemand(cfg, st, id, o);
      && (id in r.0.procs <==> MayLaunchNow(cfg, st, id))
      && (r.1.Granted? <==> MayLaunchNow(cfg, st, id))
  {
    hide Acquire, LaunchAlone, CodingOK, FlightOK, OneOwner, Lifecycle, LaunchesOK, BackoffOK;
    AcquiresExactlyWhen(cfg, st, id, o);
    if Acquire(cfg, st, id, o).Some? {
      AloneGranted(cfg, Acquire(cfg, st, id, o).value, id, o);
    }
  }

  lemma CodingSlot(cfg: Scheduling, st: State, id: string, o: Oracle)
    requires id !in st.procs && At(cfg, id).mode == Coding
    ensures var r := EnsureCoding(cfg, st, id, o);
      && (id in r.0.procs <==> MayLaunchNow(cfg, st, id))
      && (r.1.Granted? <==> MayLaunchNow(cfg, st, id))
  {
    hide SwitchTo;
    CodingGranted(cfg, st, id, o);
  }

  /** A model is launched under a spelling that has no slot yet, and its request granted,
      exactly when nothing stands in the way.  No test looks for the slot the model may
      already have under its own id. */
  lemma SecondSlotExactlyWhen(cfg: Scheduling, st: State, id: string, o: Oracle)
    requires Good(cfg) && Inv(cfg, st) && Known(cfg, id) && Askable(id) && !InGroup(cfg, id) && id !in st.procs
    ensures var r := Request(cfg, st, id, o);
      && (id in r.0.procs <==> MayLaunchNow(cfg, st, id))
      && (r.1.Granted? <==> MayLaunchNow(cfg, st, id))
  {
    hide EnsureOnDemand, EnsureCoding, Core, CodingOK, FlightOK;
    var s1 := TouchFor(st, id, At(cfg, id).mode);
    KnownMode(cfg, id);
    TouchInv(cfg, st, id, At(cfg, id).mode);
    TouchedSame(cfg, st, id, At(cfg, id).mode);
    RequestIsGuarded(cfg, st, id, o);
    if At(cfg, id).mode == Coding {
      CodingSlot(cfg, s1, id, o);
    } else if Survives(cfg, id) || !CodingRunning(cfg, s1) {
      OnDemandSlot(cfg, s1, id, o);
    }
  }

  lemma TouchedSame(cfg: Scheduling, st: State, id: string, mode: Mode)
    ensures var s1 := TouchFor(st, id, mode);
      && s1.procs == st.procs && s1.flight == st.flight && s1.live == st.live && s1.freed == st.freed
      && (MayLaunchNow(cfg, s1, id) <==> MayLaunchNow(cfg, st, id)) && (CodingRunning(cfg, s1) <==> CodingRunning(cfg, st))
  {
    assert Owners(cfg, TouchFor(st, id, mode), id) == Owners(cfg, st, id);
  }

  /** If the model runs and listens under its own id, and declares no GPU, launching it
      under another spelling kills its server. */
  lemma SecondSlotKills(cfg: Scheduling, st: State, id: string, o: Oracle)
    requires Good(cfg) && Inv(cfg, st) && Known(cfg, id) && Askable(id) && TrimSpace(id) != id && id !in st.procs
    requires var e := At(cfg, id); e.mode == Background && e.gpu == "" && e.command != ""
    requires Runs(st, TrimSpace(id)) && Listens(cfg, st, TrimSpace(id), st.procs[TrimSpace(id)], o)
    requires MayLaunchNow(cfg, st, id)
    ensures var st' := Request(cfg, st, id, o).0;
      (id, TrimSpace(id)) in st'.freed && st.procs[TrimSpace(id)].Proc() !in st'.live
  {
    hide Acquire, Launch, CodingOK, FlightOK, OneOwner, Lifecycle, BackoffOK;
    var m, s1 := TrimSpace(id), TouchFor(st, id, Background);
    TrimSpaceTrims(id);
    TrimSpaceTrims(m);
    TouchedSame(cfg, st, id, Background);
    OutsideGroup(cfg, id);
    RequestIsGuarded(cfg, st, id, o);
    NoCardNoScan(cfg, s1, id, o);
    assert Guarded(cfg, s1, id, o) == EnsureBackground(cfg, s1, id, o);
    assert Request(cfg, st, id, o).0 == LaunchAlone(cfg, s1, id, o);
    LaunchFrees(cfg, s1, id, m, o);
  }

  lemma OutsideGroup(cfg: Scheduling, id: string)
    requires Good(cfg) && TrimSpace(id) != id
    ensures !InGroup(cfg, id) && id !in cfg.models
  {
  }

  lemma NoCardNoScan(cfg: Scheduling, st: State, id: string, o: Oracle)
    requires At(cfg, id).gpu == ""
    ensures Acquire(cfg, st, id, o) == Some(st)
  {
  }

  lemma LaunchFrees(cfg: Scheduling, st: State, id: string, m: string, o: Oracle)
    requires LaunchesOK(st) && id != m && At(cfg, id) == At(cfg, m) && At(cfg, id).command != ""
    requires Runs(st, m) && Listens(cfg, st, m, st.procs[m], o)
    ensures var st' := Launch(cfg, st, id, o); (id, m) in st'.freed && st.procs[m].Proc() !in st'.live
  {
    assert m in PortVictims(cfg, st, id, o);
    var s1 := FreePort(cfg, st, id, o);
    assert (id, m) in s1.freed && st.procs[m].Proc() !in s1.live && st.procs[m].Proc() < st.nextProc;
  }

  // Two processes of one model on one card.

  /** The switch to the startup set launches its first member beside a running survivor. */
  lemma GroupDoubles(cfg: Scheduling, st: State, k: string, v: string, o: Oracle)
    requires OnlyUp(st, v) && st.nextProc > 0 && Survives(cfg, v) && k != v && At(cfg, k).command != ""
    requires IsGroup(cfg, o.group) && o.group != [] && o.group[0] == k && !InGroup(cfg, v) && k in o.starts
    ensures Runs(GroupSwitch(cfg, st, o), k) && Runs(GroupSwitch(cfg, st, o), v)
  {
    hide Launch, StopAll;
    OnlyUpStops(cfg, st, v);
    var s0 := StopAll(cfg, st);
    StopAllNext(cfg, st);
    assert !Runs(s0, k) && !Asleep(s0, k);
    LaunchShape(cfg, s0, k, o);
    LaunchCommand(cfg, s0, k, o);
    var s1, rest := Launch(cfg, s0, k, o), o.group[1..];
    assert Target(cfg, s0, k, o) == s1;
    assert s1.procs[v] == s0.procs[v];
    assert v !in rest;
    assert k !in rest;
    TargetsShape(cfg, s1, rest, o);
    assert Targets(cfg, s0, o.group, o) == Targets(cfg, s1, rest, o);
  }

  lemma StopAllNext(cfg: Scheduling, st: State)
    ensures StopAll(cfg, st).nextProc == st.nextProc
  {
  }

  /** A resident startup member that declares a GPU and has a command. */
  ghost predicate Doublable(cfg: Scheduling, m: string) {
    InGroup(cfg, m) && cfg.models[m].resident && cfg.models[m].gpu != "" && cfg.models[m].command != ""
  }

  lemma BlankedShadows(cfg: Scheduling, m: string)
    requires Good(cfg) && Doublable(cfg, m)
    ensures var v := Blanked(m);
      && Shadows(cfg, m, v) && SameCard(cfg, m, v) && Startable(cfg, v) && Survives(cfg, v)
      && !InGroup(cfg, v) && At(cfg, v).mode == Background && At(cfg, m).command != "" && m != v
  {
    BlankedKnown(cfg, m);
    BlankedAskable(m);
  }

  lemma BlankedAskable(m: string)
    ensures Askable(Blanked(m))
  {
    assert Blanked(m)[|m|] == ' ';
    assert PROXY_MODEL_ID[|PROXY_MODEL_ID| - 1] == 'y';
  }

  /** Asked for under another spelling before the startup switch, such a member ends up
      running twice on its card. */
  lemma DoubledAtStart(cfg: Scheduling, m: string) returns (evs: seq<Event>)
    requires Good(cfg) && Doublable(cfg, m)
    ensures Legal(cfg, evs) && Runs(Reached(cfg, evs), m) && Runs(Reached(cfg, evs), Blanked(m))
  {
    hide Apply, Enabled, GroupSwitch, Doublable, Startable, OnlyUp, Survives, Legal, IsGroup;
    BlankedShadows(cfg, m);
    InGroupWhen(cfg, m);
    var group := ListGroup(cfg, m);
    evs := FirstRaised(cfg, group, Blanked(m));
    var st, o := Reached(cfg, evs), Choose(group, {m}, {});
    ReachedInv(cfg, evs);
    GroupDoubles(cfg, st, m, Blanked(m), o);
    StartApplies(cfg, st, o);
    ExtendLegal(cfg, evs, Start(o));
    evs := evs + [Start(o)];
  }

  lemma InGroupWhen(cfg: Scheduling, m: string)
    requires Doublable(cfg, m)
    ensures InGroup(cfg, m)
  {
  }

  lemma ExtendLegal(cfg: Scheduling, evs: seq<Event>, ev: Event)
    requires Legal(cfg, evs) && Enabled(cfg, Reached(cfg, evs), ev)
    ensures Legal(cfg, evs + [ev]) && Reached(cfg, evs + [ev]) == Apply(cfg, Reached(cfg, evs), ev)
  {
    RunExtends(cfg, INIT, evs, ev);
  }

  /** A coding switch whose command does not start leaves v up alone, and a coding model
      that never became ready. */
  lemma FailedSwitch(cfg: Scheduling, st: State, k: string, v: string, o: Oracle)
    requires OnlyUp(st, v) && Survives(cfg, v) && k != v && k != "" && o.starts == {} && o.listening == {}
    ensures var st' := SwitchTo(cfg, st, [k], Coding, o);
      && OnlyUp(st', v) && st'.codingModel == k && st'.flight.Switching?
      && k in st'.procs && Down(st'.procs[k]) && !st'.procs[k].chClosed
  {
    OnlyUpStops(cfg, st, v);
    var s0 := StopAll(cfg, st);
    assert !Runs(s0, k) && !Asleep(s0, k);
    NoListenersNoVictims(cfg, s0, k, o);
    var s1 := Launch(cfg, s0, k, o);
    assert s1 == Place(s0, k, false);
    assert Target(cfg, s0, k, o) == s1;
    assert [k][1..] == [];
    assert Targets(cfg, s0, [k], o) == Targets(cfg, s1, [], o) == s1;
  }

  lemma FailedIsDead(cfg: Scheduling, st: State, k: string, o: Oracle)
    requires st.codingModel == k && k != "" && st.flight == Idle && IsGroup(cfg, o.group) && o.group != []
    requires k in st.procs && Down(st.procs[k]) && !st.procs[k].chClosed
    ensures Enabled(cfg, st, Recovered(o)) && Apply(cfg, st, Recovered(o)) == GroupSwitch(cfg, st, o)
  {
  }

  /** The same long after the start: the member is down, its other spelling is asked for
      and runs, a coding model fails to start, and the recovery switches the startup set
      back in. */
  lemma DoubledByRecovery(cfg: Scheduling, m: string, k: string) returns (evs: seq<Event>)
    requires Good(cfg) && Doublable(cfg, m)
    requires Startable(cfg, k) && At(cfg, k).mode == Coding && !InGroup(cfg, k)
    ensures Legal(cfg, evs) && Runs(Reached(cfg, evs), m) && Runs(Reached(cfg, evs), Blanked(m))
  {
    hide Apply, Enabled, GroupSwitch, Doublable, Startable, OnlyUp, Survives, Legal, IsGroup, SwitchTo, Raised, Still, Request;
    var v := Blanked(m);
    BlankedShadows(cfg, m);
    InGroupWhen(cfg, m);
    var group := ListGroup(cfg, m);
    evs := StillRun(cfg, group, {v, k});
    evs := RaisedRun(cfg, evs, group, v, {v, k});
    evs := FailedRun(cfg, evs, group, k, v);
    var st, o := Reached(cfg, evs), Choose(group, {m}, {});
    ReachedInv(cfg, evs);
    GroupDoubles(cfg, st, m, v, o);
    FailedIsDead(cfg, st, k, o);
    ExtendLegal(cfg, evs, Recovered(o));
    evs := evs + [Recovered(o)];
  }

  lemma FailedRun(cfg: Scheduling, evs: seq<Event>, group: seq<string>, k: string, v: string) returns (more: seq<Event>)
    requires Good(cfg) && IsGroup(cfg, group) && Legal(cfg, evs) && AsksOnly(evs, {v, k})
    requires Raised(cfg, Reached(cfg, evs), v) && Reached(cfg, evs).flight == Idle && Survives(cfg, v)
    requires Startable(cfg, k) && At(cfg, k).mode == Coding && !InGroup(cfg, k) && k != v
    ensures Legal(cfg, more)
    ensures var st := Reached(cfg, more);
      && OnlyUp(st, v) && st.codingModel == k && k != "" && st.flight == Idle
      && k in st.procs && Down(st.procs[k]) && !st.procs[k].chClosed
  {
    hide Apply, Enabled, Legal, Survives, SwitchTo, Request;
    var st, o := Reached(cfg, evs), Choose(group, {}, {});
    AskSwitches(cfg, st, k, o);
    AskApplies(cfg, st, k, o);
    FailedSwitch(cfg, TouchFor(st, k, Coding), k, v, o);
    more := ThenSettle(cfg, evs, Ask(k, o), o, {v, k});
  }

  /** No two slots ever run on one card, whatever is asked for, if and only if no resident
      member of the startup set declares a GPU and has a command. */
  lemma GPUExclusiveExactlyWhen(cfg: Scheduling)
    requires Good(cfg)
    ensures (forall m :: !Doublable(cfg, m)) <==>
      forall evs, a, b | Legal(cfg, evs) && Runs(Reached(cfg, evs), a) && Runs(Reached(cfg, evs), b) && SameCard(cfg, a, b) :: a == b
  {
    hide Legal, Reached, Doublable, Runs, SameCard;
    if forall m :: !Doublable(cfg, m) {
      forall evs, a, b | Legal(cfg, evs) && Runs(Reached(cfg, evs), a) && Runs(Reached(cfg, evs), b) && SameCard(cfg, a, b)
        ensures a == b
      {
        GPUExclusive(cfg, evs, a, b);
        if Shadows(cfg, a, b) {
          RunsDoubled(cfg, evs, a, b);
        } else if Shadows(cfg, b, a) {
          RunsDoubled(cfg, evs, b, a);
        }
      }
    } else {
      var m :| Doublable(cfg, m);
      var evs := DoubledAtStart(cfg, m);
      BlankedShadows(cfg, m);
    }
  }

  lemma RunsDoubled(cfg: Scheduling, evs: seq<Event>, m: string, v: string)
    requires Good(cfg) && Legal(cfg, evs) && Runs(Reached(cfg, evs), m) && Shadows(cfg, m, v)
    requires SameCard(cfg, m, v) || SameCard(cfg, v, m)
    ensures Doublable(cfg, m)
  {
    ReachedSafe(cfg, evs);
    AtKey(cfg, m);
  }

  // Two processes of one model on one address.

  /** A background model with a command that can be launched beside itself. */
  ghost predicate SharesItself(cfg: Scheduling, m: string) {
    && m in cfg.models && cfg.models[m].mode == Background && cfg.models[m].command != "" && cfg.models[m].origin != ""
    && (cfg.models[m].gpu == "" || (cfg.models[m].resident && cfg.models[m].autostart))
  }

  /** Asked for under another spelling, a GPU-less model runs twice. */
  lemma DoubledBeside(cfg: Scheduling, m: string) returns (evs: seq<Event>)
    requires Good(cfg) && AllStartable(cfg) && m in cfg.models && cfg.models[m].mode == Background
    requires cfg.models[m].command != "" && cfg.models[m].gpu == ""
    ensures Legal(cfg, evs) && Runs(Reached(cfg, evs), m) && Runs(Reached(cfg, evs), Blanked(m))
  {
    hide Apply, Enabled, Legal, Still, Startable, IsGroup, AsksOnly;
    var v := Blanked(m);
    BlankedKnown(cfg, m);
    BlankedAskable(m);
    var group := ListGroup(cfg, m);
    evs := StillRun(cfg, group, {m, v});
    evs := RaisedRun(cfg, evs, group, m, {m, v});
    var st, o := Reached(cfg, evs), Choose(group, {v}, {});
    ReachedInv(cfg, evs);
    BesideRuns(cfg, st, v, m, o);
    AskApplies(cfg, st, v, o);
    ExtendLegal(cfg, evs, Ask(v, o));
    evs := evs + [Ask(v, o)];
  }

  lemma BesideRuns(cfg: Scheduling, st: State, v: string, m: string, o: Oracle)
    requires Good(cfg) && OnlyUp(st, m) && st.flight == Idle && st.nextProc > 0 && v != m && Known(cfg, v) && Askable(v)
    requires At(cfg, v).mode == Background && At(cfg, v).gpu == "" && At(cfg, v).command != "" && v !in cfg.models && v in o.starts
    ensures Runs(Request(cfg, st, v, o).0, v) && Runs(Request(cfg, st, v, o).0, m)
  {
    hide Launch, Request, Acquire;
    var s1 := TouchFor(st, v, Background);
    NoCardNoScan(cfg, s1, v, o);
    assert !Runs(st, v);
    AskLaunches(cfg, st, v, o);
    LaunchCommand(cfg, s1, v, o);
    LaunchShape(cfg, s1, v, o);
  }

  /** No two background slots that run share an address, whatever is asked for, if and only
      if every background model with a command and an address declares a GPU and is not a
      resident member of the startup set. */
  lemma OriginsExclusiveExactlyWhen(cfg: Scheduling)
    requires Good(cfg) && BackgroundOriginsAccepted(cfg) && AllStartable(cfg)
    ensures (forall m :: !SharesItself(cfg, m)) <==>
      forall evs, a, b | Legal(cfg, evs) && SharesOrigin(cfg, Reached(cfg, evs), a, b) :: a == b
  {
    hide Legal, Reached, SharesItself, SharesOrigin, AllStartable, BackgroundOriginsAccepted;
    if forall m :: !SharesItself(cfg, m) {
      forall evs, a, b | Legal(cfg, evs) && SharesOrigin(cfg, Reached(cfg, evs), a, b) ensures a == b {
        OriginShared(cfg, evs, a, b);
      }
    } else {
      var m :| SharesItself(cfg, m);
      var evs := SharedRun(cfg, m);
    }
  }

  ghost predicate SharesOrigin(cfg: Scheduling, st: State, a: string, b: string) {
    && Runs(st, a) && Runs(st, b) && At(cfg, a).mode == Background && At(cfg, b).mode == Background
    && At(cfg, a).origin != "" && At(cfg, a).origin == At(cfg, b).origin
  }

  lemma RunsCommand(cfg: Scheduling, evs: seq<Event>, a: string)
    requires Good(cfg) && Legal(cfg, evs) && Runs(Reached(cfg, evs), a)
    ensures Known(cfg, a) && At(cfg, a).command != ""
  {
    ReachedSafe(cfg, evs);
  }

  lemma OriginShared(cfg: Scheduling, evs: seq<Event>, a: string, b: string)
    requires Good(cfg) && BackgroundOriginsAccepted(cfg) && Legal(cfg, evs) && SharesOrigin(cfg, Reached(cfg, evs), a, b)
    requires forall m :: !SharesItself(cfg, m)
    ensures a == b
  {
    hide BackgroundOriginsAccepted, SchedulingAccepted, Legal, Reached, Runs;
    OriginsNotShared(cfg, evs, a, b);
    RunsCommand(cfg, evs, a);
    GPUExclusive(cfg, evs, a, b);
    var m := TrimSpace(a);
    assert At(cfg, a) == cfg.models[m] && At(cfg, b) == cfg.models[m] && !SharesItself(cfg, m);
  }

  lemma SharedRun(cfg: Scheduling, m: string) returns (evs: seq<Event>)
    requires Good(cfg) && AllStartable(cfg) && SharesItself(cfg, m)
    ensures Legal(cfg, evs) && SharesOrigin(cfg, Reached(cfg, evs), m, Blanked(m)) && m != Blanked(m)
  {
    hide Legal, Reached, AllStartable, Runs;
    BlankedKnown(cfg, m);
    if cfg.models[m].gpu == "" {
      evs := DoubledBeside(cfg, m);
    } else {
      evs := DoubledAtStart(cfg, m);
    }
  }
}
