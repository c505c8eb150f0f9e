/** What the code does not test does happen: runs that break the promises, each of them
    from the initial state. */
module Hazards {
  import opened Text
  import opened Config
  import opened Backoff
  import opened Machine
  import opened Invariants
  import opened Steps
  import opened Moves
  import opened Safety
  import opened Theorems
  import opened Requests
  import opened Worlds
  import opened Races

  // Runs, act by act.

  lemma OneAct(cfg: Scheduling, w: World, a: Act)
    requires Can(cfg, w, a)
    ensures CanAll(cfg, w, [a]) && After(cfg, w, [a]) == Next(cfg, w, a)
    ensures CallersClean(cfg, w, [a]) <==> a.Late? || Clean(cfg, w, a)
    ensures AllClean(cfg, w, [a]) <==> Clean(cfg, w, a)
  {
    hide Can, Next, Clean;
    assert [a][1..] == [];
  }

  lemma MoreActs(cfg: Scheduling, w: World, a: Act, rest: seq<Act>)
    requires Can(cfg, w, a) && CanAll(cfg, Next(cfg, w, a), rest)
    ensures CanAll(cfg, w, [a] + rest) && After(cfg, w, [a] + rest) == After(cfg, Next(cfg, w, a), rest)
    ensures CallersClean(cfg, w, [a] + rest) <==> (a.Late? || Clean(cfg, w, a)) && CallersClean(cfg, Next(cfg, w, a), rest)
    ensures AllClean(cfg, w, [a] + rest) <==> Clean(cfg, w, a) && AllClean(cfg, Next(cfg, w, a), rest)
  {
    hide Can, Next, Clean;
    assert ([a] + rest)[0] == a && ([a] + rest)[1..] == rest;
  }

  lemma ThreeActs(cfg: Scheduling, w: World, w1: World, w2: World, a: Act, b: Act, c: Act)
    requires Can(cfg, w, a) && w1 == Next(cfg, w, a) && Can(cfg, w1, b) && w2 == Next(cfg, w1, b) && Can(cfg, w2, c)
    ensures CanAll(cfg, w, [a, b, c]) && After(cfg, w, [a, b, c]) == Next(cfg, w2, c)
    ensures (a.Late? || Clean(cfg, w, a)) && (b.Late? || Clean(cfg, w1, b)) && (c.Late? || Clean(cfg, w2, c)) ==>
      CallersClean(cfg, w, [a, b, c])
  {
    hide Can, Next, CanAll, After, Clean, CallersClean;
    OneAct(cfg, w2, c);
    MoreActs(cfg, w1, b, [c]);
    MoreActs(cfg, w, a, [b] + [c]);
    assert [a, b, c] == [a] + ([b] + [c]);
  }

  lemma FourActs(cfg: Scheduling, w: World, w1: World, w2: World, w3: World, a: Act, b: Act, c: Act, d: Act)
    requires Can(cfg, w, a) && w1 == Next(cfg, w, a) && Can(cfg, w1, b) && w2 == Next(cfg, w1, b)
    requires Can(cfg, w2, c) && w3 == Next(cfg, w2, c) && Can(cfg, w3, d)
    ensures CanAll(cfg, w, [a, b, c, d]) && After(cfg, w, [a, b, c, d]) == Next(cfg, w3, d)
  {
    hide Can, Next, CanAll, After;
    OneAct(cfg, w3, d);
    MoreActs(cfg, w2, c, [d]);
    MoreActs(cfg, w1, b, [c] + [d]);
    MoreActs(cfg, w, a, [b] + ([c] + [d]));
    assert [a, b, c, d] == [a] + ([b] + ([c] + [d]));
  }

  /** One run after another. */
  lemma {:induction false} Appended(cfg: Scheduling, w: World, a: seq<Act>, b: seq<Act>)
    requires CanAll(cfg, w, a) && CanAll(cfg, After(cfg, w, a), b)
    ensures CanAll(cfg, w, a + b) && After(cfg, w, a + b) == After(cfg, After(cfg, w, a), b)
    ensures CallersClean(cfg, w, a) && CallersClean(cfg, After(cfg, w, a), b) ==> CallersClean(cfg, w, a + b)
    decreases |a|
  {
    hide Can, Next, Clean;
    if a == [] {
      assert a + b == b;
    } else {
      Appended(cfg, Next(cfg, w, a[0]), a[1..], b);
      assert (a + b)[0] == a[0] && (a + b)[1..] == a[1..] + b;
    }
  }

  /** A clean run from START, and the world it leads to. */
  ghost predicate Leads(cfg: Scheduling, acts: seq<Act>, w: World) {
    CanAll(cfg, START, acts) && CallersClean(cfg, START, acts) && After(cfg, START, acts) == w && WorldOK(cfg, w) && Sound(cfg, w)
  }

  lemma StartLeads(cfg: Scheduling)
    requires Good(cfg)
    ensures Leads(cfg, [], START)
  {
    InitInv(cfg);
  }

  /** One clean act more. */
  lemma Leads1(cfg: Scheduling, acts: seq<Act>, w: World, a: Act)
    requires Good(cfg) && Leads(cfg, acts, w) && Can(cfg, w, a) && Clean(cfg, w, a)
    ensures Leads(cfg, acts + [a], Next(cfg, w, a))
  {
    hide Can, Next, Clean, CanAll, After, WorldOK, Sound, CallersClean;
    OneAct(cfg, w, a);
    Appended(cfg, START, acts, [a]);
    ActExactlyWhen(cfg, w, a);
  }

  // A late mark, when a model is evicted.

  lemma EvictionBegins(cfg: Scheduling, w: World, k: string, o: Oracle)
    requires w.halt == NoHalt && w.st.flight == Idle && Ticket(k, ToOnDemand) in w.queue
    requires !Runs(w.st, k) && Evicts(cfg, w.st, k, o)
    ensures var v := FirstOwner(cfg, w.st, k, o);
      && Can(cfg, w, Break(Ticket(k, ToOnDemand), o))
      && Next(cfg, w, Break(Ticket(k, ToOnDemand), o)) ==
           World(Drowse(w.st, v), Killing(v, ThenLaunch(k)), w.queue - multiset{Ticket(k, ToOnDemand)})
  {
  }

  lemma LateMark(cfg: Scheduling, w: World, id: string, o: Oracle)
    ensures Can(cfg, w, Late(id, o)) && Next(cfg, w, Late(id, o)) == w.(st := MarkReady(cfg, w.st, id, o))
  {
  }

  lemma KillEnds(cfg: Scheduling, w: World, o: Oracle, v: string, k: string)
    requires w.halt == Killing(v, ThenLaunch(k)) && v in w.st.procs
    ensures Can(cfg, w, Shut(o))
    ensures Next(cfg, w, Shut(o)) == World(LaunchAlone(cfg, Stow(w.st, v), k, o), NoHalt, w.queue)
    ensures Clean(cfg, w, Shut(o)) <==> InTime(cfg, Stow(w.st, v), k, o)
  {
  }

  /** Both flags up, no process, a fresh channel; the old channel closed. */
  ghost predicate Undead(st: State, id: string) {
    && Asleep(st, id) && st.procs[id].readyOK
    && st.procs[id].cmd == 0 && st.procs[id].server == 0 && st.procs[id].ch !in st.closes
  }

  lemma MarkedAsleep(cfg: Scheduling, st: State, id: string, p: Oracle)
    requires Lifecycle(st) && id in st.procs
    ensures var st' := MarkReady(cfg, Drowse(st, id), id, p);
      && id in st'.procs
      && var s := Stow(st', id);
         Undead(s, id) && st.procs[id].ch in s.closes && forall x :: BackoffActive(s, x) ==> BackoffActive(st, x)
  {
    hide Listens;
    assert SlotOK(st, st.procs[id]);
  }

  lemma LaunchSpares(cfg: Scheduling, s: State, id: string, k: string, o: Oracle)
    requires Undead(s, id) && id != k
    ensures Undead(LaunchAlone(cfg, s, k, o), id) && LaunchAlone(cfg, s, k, o).closes == s.closes
  {
    LaunchShape(cfg, s, k, o);
    FreePortShape(cfg, s, k, o);
  }

  lemma SoundLifecycle(cfg: Scheduling, w: World)
    requires Sound(cfg, w) && w.halt == NoHalt
    ensures Lifecycle(w.st)
  {
  }

  /** The probe loop is probing v, which runs and is not ready.  An on-demand request that
      waited evicts v, and the mark comes while v is being killed: v ends up asleep and
      marked ready, without a process, behind a channel nobody has closed, and whoever
      waited for v is told it is ready.  Nothing but the mark is at fault. */
  lemma LateMarkComesTrue(cfg: Scheduling, w: World, k: string, o: Oracle, p: Oracle)
    requires Good(cfg) && WorldOK(cfg, w) && Sound(cfg, w) && w.halt == NoHalt && w.st.flight == Idle
    requires Ticket(k, ToOnDemand) in w.queue && !Runs(w.st, k)
    requires GuardHolds(cfg, w.st, k) && InTime(cfg, w.st, k, o) && Evicts(cfg, w.st, k, o)
    requires !w.st.procs[FirstOwner(cfg, w.st, k, o)].readyOK
    ensures var v := FirstOwner(cfg, w.st, k, o);
      var acts := [Break(Ticket(k, ToOnDemand), o), Late(v, p), Shut(o)];
      && CanAll(cfg, w, acts) && CallersClean(cfg, w, acts)
      && var st := After(cfg, w, acts).st; Undead(st, v) && !Runs(st, v) && w.st.procs[v].ch in st.closes
  {
    hide Can, Next, CanAll, After, Sound, WorldOK, MarkReady, Stow, Drowse, LaunchAlone, GuardHolds, BackoffActive, Lifecycle;
    var t, v := Ticket(k, ToOnDemand), FirstOwner(cfg, w.st, k, o);
    var w1 := World(Drowse(w.st, v), Killing(v, ThenLaunch(k)), w.queue - multiset{t});
    var w2 := w1.(st := MarkReady(cfg, w1.st, v, p));
    SoundLifecycle(cfg, w);
    MarkedAsleep(cfg, w.st, v, p);
    LaunchSpares(cfg, Stow(w2.st, v), v, k, o);
    EvictionBegins(cfg, w, k, o);
    LateMark(cfg, w1, v, p);
    KillEnds(cfg, w2, o, v, k);
    ThreeActs(cfg, w, w1, w2, Break(t, o), Late(v, p), Shut(o));
  }

  // A backoff window nobody asks for again.

  lemma SwitchAlone(cfg: Scheduling, st: State, id: string, o: Oracle)
    requires Good(cfg) && Inv(cfg, st) && Known(cfg, id) && id != "" && At(cfg, id).mode == Coding
    requires !Runs(st, id) && Starts(cfg, id, o)
    ensures var st' := SwitchTo(cfg, st, [id], Coding, o);
      id in st'.procs && st'.procs[id].cmd != 0 && !st'.procs[id].sleeping && st'.failCount == st.failCount
  {
    hide CodingOK, FlightOK, Launchable, Listens;
    var s0 := StopAll(cfg, st);
    StopAllCore(cfg, st);
    StopAllLaunchable(cfg, st, [id], Coding);
    assert id !in s0.procs;
    TargetsRun(cfg, s0, [id], o, id);
    assert Targets(cfg, s0, [id], o) == Target(cfg, s0, id, o) by { assert [id][1..] == []; }
    LaunchShape(cfg, s0, id, o);
  }

  lemma ReapFails(cfg: Scheduling, st: State, id: string, o: Oracle)
    requires BackoffOK(st) && id in st.procs && st.procs[id].cmd != 0 && !st.procs[id].sleeping && o.listening == {}
    requires id in st.failCount && st.failCount[id] >= 1
    ensures var st' := Reap(cfg, st, id, st.procs[id].cmd, o); !Runs(st', id) && BackoffActive(st', id)
  {
    FailureBacksOff(Stopped(st, id), id);
  }

  lemma ServeCodingActs(cfg: Scheduling, w: World, id: string, o: Oracle)
    requires Ticket(id, ToCoding) in w.queue && w.halt == NoHalt && w.st.flight == Idle && IsGroup(cfg, o.group) && !Runs(w.st, id)
    ensures var a := Serve(Ticket(id, ToCoding), o);
      && Can(cfg, w, a)
      && Next(cfg, w, a) == World(SwitchTo(cfg, w.st, [id], Coding, o), NoHalt, w.queue - multiset{Ticket(id, ToCoding)})
  {
  }

  lemma ExitAndFinish(cfg: Scheduling, w: World, id: string, proc: nat, o: Oracle)
    requires w.halt == NoHalt && w.st.flight.Switching?
    ensures var w1 := w.(st := Reap(cfg, w.st, id, proc, o));
      && Can(cfg, w, Plain(Reaped(id, proc, o))) && Next(cfg, w, Plain(Reaped(id, proc, o))) == w1
      && Can(cfg, w1, Plain(Finish([], o))) && Next(cfg, w1, Plain(Finish([], o))) == w1.(st := w1.st.(flight := Idle))
  {
    ReapFlight(cfg, w.st, id, proc, o);
  }

  lemma ReapFlight(cfg: Scheduling, st: State, id: string, proc: nat, o: Oracle)
    ensures Reap(cfg, st, id, proc, o).flight == st.flight
  {
  }

  /** Two requests for a coding model that has failed before wait for switchMu.  The first
      one starts it, it fails again and a backoff window opens; the second one starts it
      inside that window. */
  lemma QueuedRequestIgnoresBackoff(cfg: Scheduling, w: World, id: string, o: Oracle, o': Oracle)
    requires Good(cfg) && WorldOK(cfg, w) && Sound(cfg, w) && w.halt == NoHalt && w.st.flight == Idle
    requires w.queue[Ticket(id, ToCoding)] >= 2 && !Runs(w.st, id) && id in w.st.failCount && w.st.failCount[id] >= 1
    requires Starts(cfg, id, o) && IsGroup(cfg, o.group) && o'.listening == {}
    ensures var st1 := SwitchTo(cfg, w.st, [id], Coding, o);
      && id in st1.procs
      && var turn := Serve(Ticket(id, ToCoding), o);
         var acts := [turn, Plain(Reaped(id, st1.procs[id].cmd, o')), Plain(Finish([], o')), turn];
      && CanAll(cfg, w, acts)
      && var st := After(cfg, w, acts).st; Runs(st, id) && BackoffActive(st, id) && !InGroup(cfg, id)
  {
    hide Can, Next, CanAll, After, Safe, SwitchTo, Reap, Starts, BackoffActive, Core, CodingOK, FlightOK;
    var t, st1 := Ticket(id, ToCoding), SwitchTo(cfg, w.st, [id], Coding, o);
    assert TicketOK(cfg, t);
    SafeSlots(cfg, w.st);
    SwitchAlone(cfg, w.st, id, o);
    SwitchInv(cfg, w.st, [id], Coding, o);
    SwitchShape(cfg, w.st, [id], Coding, o);
    var proc := st1.procs[id].cmd;
    var st2 := Reap(cfg, st1, id, proc, o');
    InvBackoff(cfg, st1);
    ReapFails(cfg, st1, id, o');
    ReapInv(cfg, st1, id, proc, o');
    ReapFlight(cfg, st1, id, proc, o');
    var st3 := st2.(flight := Idle);
    FinishInv(cfg, st2, [], o');
    StillBacksOff(st2, id);
    var w1 := World(st1, NoHalt, w.queue - multiset{t});
    var w2, w3 := w1.(st := st2), w1.(st := st3);
    ServeCodingActs(cfg, w, id, o);
    ExitAndFinish(cfg, w1, id, proc, o');
    ServeCodingActs(cfg, w3, id, o);
    SwitchStarts(cfg, st3, id, o);
    FourActs(cfg, w, w1, w2, w3, Serve(t, o), Plain(Reaped(id, proc, o')), Plain(Finish([], o')), Serve(t, o));
  }

  lemma InvBackoff(cfg: Scheduling, st: State)
    requires Inv(cfg, st)
    ensures BackoffOK(st)
  {
  }

  lemma StillBacksOff(st: State, id: string)
    ensures BackoffActive(st.(flight := Idle), id) <==> BackoffActive(st, id)
    ensures Runs(st.(flight := Idle), id) <==> Runs(st, id)
  {
  }

  /** A member's request that waits to switch the startup set in stops the coding model
      registered meanwhile, whatever its lease, and only then does anything to it. */
  lemma QueuedGroupStopsCoding(cfg: Scheduling, w: World, id: string, o: Oracle, c: string)
    requires Good(cfg) && WorldOK(cfg, w) && Sound(cfg, w) && Can(cfg, w, Serve(Ticket(id, ToGroup), o))
    requires c in w.st.procs && At(cfg, c).mode == Coding
    ensures c in Next(cfg, w, Serve(Ticket(id, ToGroup), o)).st.procs <==> w.st.codingModel == "" && Runs(w.st, id)
  {
    hide Safe, Core, FlightOK;
    SafeSlots(cfg, w.st);
    assert TicketOK(cfg, Ticket(id, ToGroup));
    assert id in o.group;
    CodingNotInGroup(cfg, c);
    SwitchShape(cfg, w.st, o.group, Background, o);
  }

  /** While its process is being killed a model still counts as running: a request is then
      handed the old channel, which nobody has replaced yet and which is closed if the
      model was ready. */
  lemma StaleReadyDuringKill(cfg: Scheduling, w: World, o: Oracle)
    requires Good(cfg) && WorldOK(cfg, w) && Sound(cfg, w) && w.halt.Killing? && Served(cfg, w.halt.v)
    requires Runs(w.st, w.halt.v) && !TurnedAway(cfg, TouchedBy(cfg, w.st, w.halt.v), w.halt.v)
    requires InGroup(cfg, w.halt.v) ==> At(cfg, w.halt.v).resident || w.st.codingModel == ""
    ensures Request(cfg, w.st, w.halt.v, o).1 == Granted(w.st.procs[w.halt.v].ch)
    ensures w.st.procs[w.halt.v].ch in w.st.closes <==> w.st.procs[w.halt.v].chClosed
    ensures Request(cfg, w.st, w.halt.v, o).0 == TouchedBy(cfg, w.st, w.halt.v)
  {
    hide Safe, RestOK, CodingRunning, LeaseActive;
    RequestIsGuarded(cfg, w.st, w.halt.v, o);
  }

  // From the initial state.

  /** Nothing was ever launched. */
  predicate Fresh(st: State) {
    && st.procs == map[] && st.nextRestartAt == map[] && st.failCount == map[]
    && st.flight == Idle && st.codingModel == "" && st.now == 1
  }

  /** What a request for id comes to wait for then. */
  function FirstPath(cfg: Scheduling, id: string): Path {
    if At(cfg, id).mode == Coding then ToCoding else if InGroup(cfg, id) then ToGroup else ToOnDemand
  }

  lemma KnockFresh(cfg: Scheduling, acts: seq<Act>, w: World, id: string) returns (more: seq<Act>, w': World)
    requires Good(cfg) && Leads(cfg, acts, w) && w.halt == NoHalt && Fresh(w.st) && Served(cfg, id)
    ensures Leads(cfg, more, w') && w'.halt == NoHalt && Fresh(w'.st)
    ensures w'.queue == w.queue + multiset{Ticket(id, FirstPath(cfg, id))}
  {
    hide Leads;
    Leads1(cfg, acts, w, Knock(id));
    more, w' := acts + [Knock(id)], Next(cfg, w, Knock(id));
    FreshKnock(cfg, w.st, id);
  }

  lemma FreshKnock(cfg: Scheduling, st: State, id: string)
    requires Good(cfg) && Fresh(st) && Served(cfg, id)
    ensures TicketFor(cfg, st, id) == Some(FirstPath(cfg, id)) && Fresh(Knocked(cfg, st, id))
  {
    KnownMode(cfg, id);
    assert !CodingRunning(cfg, TouchedBy(cfg, st, id));
  }

  /** A waiting coding request has its turn first of all and starts its model; the wait for
      its readiness ends without it. */
  lemma CodingFirst(cfg: Scheduling, acts: seq<Act>, w: World, c: string, o: Oracle) returns (more: seq<Act>, w': World)
    requires Good(cfg) && Leads(cfg, acts, w) && w.halt == NoHalt && Fresh(w.st)
    requires Ticket(c, ToCoding) in w.queue && Starts(cfg, c, o) && IsGroup(cfg, o.group)
    ensures Leads(cfg, more, w') && w'.halt == NoHalt && w'.st.flight == Idle
    ensures w'.queue == w.queue - multiset{Ticket(c, ToCoding)}
    ensures w'.st.procs.Keys == {c} && w'.st.codingModel == c && w'.st.procs[c].cmd != 0 && At(cfg, c).mode == Coding
    ensures w'.st.lastCodingAt == w'.st.now == 1
  {
    hide Leads, Can, Next, Clean, SwitchTo, Starts;
    var turn, st1 := Serve(Ticket(c, ToCoding), o), SwitchTo(cfg, w.st, [c], Coding, o);
    TicketHere(cfg, acts, w, c);
    ServeCodingActs(cfg, w, c, o);
    FreshServeClean(cfg, w, c, o);
    Leads1(cfg, acts, w, turn);
    var w1 := World(st1, NoHalt, w.queue - multiset{Ticket(c, ToCoding)});
    SwitchAlone(cfg, w.st, c, o);
    SwitchShape(cfg, w.st, [c], Coding, o);
    FinishActs(cfg, w1, o);
    Leads1(cfg, acts + [turn], w1, Plain(Finish([], o)));
    more, w' := acts + [turn] + [Plain(Finish([], o))], w1.(st := st1.(flight := Idle));
    assert w'.st.procs.Keys == {c};
  }

  lemma TicketHere(cfg: Scheduling, acts: seq<Act>, w: World, c: string)
    requires Leads(cfg, acts, w) && w.halt == NoHalt && Ticket(c, ToCoding) in w.queue
    ensures TicketOK(cfg, Ticket(c, ToCoding)) && Inv(cfg, w.st)
  {
    hide Inv;
  }

  lemma FreshServeClean(cfg: Scheduling, w: World, c: string, o: Oracle)
    requires Fresh(w.st)
    ensures Clean(cfg, w, Serve(Ticket(c, ToCoding), o)) && !Runs(w.st, c)
  {
  }

  lemma FinishActs(cfg: Scheduling, w: World, o: Oracle)
    requires w.halt == NoHalt && w.st.flight.Switching?
    ensures var a := Plain(Finish([], o)); Can(cfg, w, a) && Clean(cfg, w, a) && Next(cfg, w, a) == w.(st := w.st.(flight := Idle))
  {
  }

  /** A request for x waits while a coding request overtakes it. */
  lemma CodingOvertakes(cfg: Scheduling, x: string, c: string, o: Oracle) returns (acts: seq<Act>, w: World)
    requires Good(cfg) && Served(cfg, x) && Served(cfg, c) && At(cfg, c).mode == Coding
    requires Starts(cfg, c, o) && IsGroup(cfg, o.group)
    ensures Leads(cfg, acts, w) && w.halt == NoHalt && w.st.flight == Idle
    ensures Ticket(x, FirstPath(cfg, x)) in w.queue
    ensures w.st.procs.Keys == {c} && w.st.codingModel == c && w.st.procs[c].cmd != 0
    ensures w.st.lastCodingAt == w.st.now == 1
  {
    hide Leads, Starts, FirstPath;
    StartLeads(cfg);
    acts, w := KnockFresh(cfg, [], START, x);
    acts, w := KnockFresh(cfg, acts, w, c);
    assert FirstPath(cfg, c) == ToCoding by { CodingPath(cfg, c); }
    acts, w := CodingFirst(cfg, acts, w, c, o);
  }

  lemma CodingPath(cfg: Scheduling, c: string)
    requires At(cfg, c).mode == Coding
    ensures FirstPath(cfg, c) == ToCoding
  {
  }

  /** A request for a member of the startup set waits, a coding model is started and its
      lease is active: in some run from the initial state the member's request stops it. */
  lemma GroupStopsCodingRun(cfg: Scheduling, m: string, c: string, o: Oracle) returns (acts: seq<Act>, w: World)
    requires Good(cfg) && cfg.lease > 0 && Served(cfg, m) && InGroup(cfg, m)
    requires Served(cfg, c) && At(cfg, c).mode == Coding && Starts(cfg, c, o) && IsGroup(cfg, o.group)
    ensures Leads(cfg, acts, w) && Runs(w.st, c) && LeaseActive(cfg, w.st)
    ensures var a := Serve(Ticket(m, ToGroup), o); Can(cfg, w, a) && c !in Next(cfg, w, a).st.procs
  {
    hide Leads, Starts, Next;
    assert At(cfg, m).mode == Background by { AtKey(cfg, m); }
    acts, w := CodingOvertakes(cfg, m, c, o);
    LeadsOK(cfg, acts, w);
    QueuedGroupStopsCoding(cfg, w, m, o, c);
  }

  lemma LeadsOK(cfg: Scheduling, acts: seq<Act>, w: World)
    requires Leads(cfg, acts, w)
    ensures WorldOK(cfg, w) && Sound(cfg, w) && CanAll(cfg, START, acts)
  {
  }

  /** A request for an on-demand model that declares a GPU waits, a coding model is
      started: in some run from the initial state the request is served beside it. */
  lemma LaunchBesideCodingRun(cfg: Scheduling, d: string, c: string, o: Oracle) returns (acts: seq<Act>, w: World)
    requires Good(cfg) && Served(cfg, d) && At(cfg, d).mode == Background && !Survives(cfg, d) && !InGroup(cfg, d)
    requires Served(cfg, c) && At(cfg, c).mode == Coding && Starts(cfg, c, o) && IsGroup(cfg, o.group)
    ensures Leads(cfg, acts, w) && Runs(w.st, c)
    ensures var a := Serve(Ticket(d, ToOnDemand), o); Can(cfg, w, a) && !Sound(cfg, Next(cfg, w, a))
  {
    hide Leads, Starts, Next, Sound, WorldOK;
    acts, w := CodingOvertakes(cfg, d, c, o);
    LeadsOK(cfg, acts, w);
    var a := Serve(Ticket(d, ToOnDemand), o);
    OnlyCoding(cfg, w.st, d, c);
    ActExactlyWhen(cfg, w, a);
  }

  lemma OnlyCoding(cfg: Scheduling, st: State, d: string, c: string)
    requires Good(cfg) && st.procs.Keys == {c} && At(cfg, c).mode == Coding && Runs(st, c)
    requires Known(cfg, c) && At(cfg, d).mode == Background && !Survives(cfg, d)
    ensures !Runs(st, d) && !Refuses(cfg, st, d) && !GuardHolds(cfg, st, d)
  {
    KnownMode(cfg, c);
  }

  /** Three requests for a coding model come together.  It fails twice, and the third one
      starts it inside the window the second failure opened. */
  lemma BackoffIgnoredRun(cfg: Scheduling, c: string, o: Oracle, o': Oracle) returns (acts: seq<Act>, w: World)
    requires Good(cfg) && Served(cfg, c) && At(cfg, c).mode == Coding
    requires Starts(cfg, c, o) && IsGroup(cfg, o.group) && o'.listening == {}
    ensures CanAll(cfg, START, acts) && After(cfg, START, acts) == w
    ensures Runs(w.st, c) && BackoffActive(w.st, c) && !InGroup(cfg, c)
  {
    hide Leads, Starts, FirstPath, Reap, CanAll, After, Can, Next, Clean, Sound, WorldOK;
    var t := Ticket(c, ToCoding);
    StartLeads(cfg);
    acts, w := KnockFresh(cfg, [], START, c);
    acts, w := KnockFresh(cfg, acts, w, c);
    acts, w := KnockFresh(cfg, acts, w, c);
    CodingPath(cfg, c);
    assert w.queue == multiset{t, t, t};
    acts, w := FirstFailure(cfg, acts, w, c, o, o');
    LeadsOK(cfg, acts, w);
    QueuedRequestIgnoresBackoff(cfg, w, c, o, o');
    var st1 := SwitchTo(cfg, w.st, [c], Coding, o);
    var more := [Serve(t, o), Plain(Reaped(c, st1.procs[c].cmd, o')), Plain(Finish([], o')), Serve(t, o)];
    LeadsAfter(cfg, acts, w);
    Appended(cfg, START, acts, more);
    acts, w := acts + more, After(cfg, w, more);
  }

  lemma LeadsAfter(cfg: Scheduling, acts: seq<Act>, w: World)
    requires Leads(cfg, acts, w)
    ensures CanAll(cfg, START, acts) && After(cfg, START, acts) == w && CallersClean(cfg, START, acts)
  {
  }

  lemma FirstFailure(cfg: Scheduling, acts: seq<Act>, w: World, c: string, o: Oracle, o': Oracle) returns (more: seq<Act>, w': World)
    requires Good(cfg) && Leads(cfg, acts, w) && w.halt == NoHalt && Fresh(w.st)
    requires Ticket(c, ToCoding) in w.queue && Starts(cfg, c, o) && IsGroup(cfg, o.group) && o'.listening == {}
    ensures Leads(cfg, more, w') && w'.halt == NoHalt && w'.st.flight == Idle && !Runs(w'.st, c)
    ensures w'.queue == w.queue - multiset{Ticket(c, ToCoding)}
    ensures c in w'.st.failCount && w'.st.failCount[c] == 1
  {
    hide Leads, Can, Next, Clean, SwitchTo, Starts, Reap;
    var turn, st1 := Serve(Ticket(c, ToCoding), o), SwitchTo(cfg, w.st, [c], Coding, o);
    TicketHere(cfg, acts, w, c);
    ServeCodingActs(cfg, w, c, o);
    FreshServeClean(cfg, w, c, o);
    Leads1(cfg, acts, w, turn);
    var w1 := World(st1, NoHalt, w.queue - multiset{Ticket(c, ToCoding)});
    SwitchAlone(cfg, w.st, c, o);
    SwitchShape(cfg, w.st, [c], Coding, o);
    var reaped, st2 := Plain(Reaped(c, st1.procs[c].cmd, o')), Reap(cfg, st1, c, st1.procs[c].cmd, o');
    ExitAndFinish(cfg, w1, c, st1.procs[c].cmd, o');
    PlainsClean(cfg, w1, Reaped(c, st1.procs[c].cmd, o'));
    Leads1(cfg, acts + [turn], w1, reaped);
    var w2 := w1.(st := st2);
    PlainsClean(cfg, w2, Finish([], o'));
    Leads1(cfg, acts + [turn] + [reaped], w2, Plain(Finish([], o')));
    FirstReap(cfg, st1, c, o');
    more, w' := acts + [turn] + [reaped] + [Plain(Finish([], o'))], w2.(st := st2.(flight := Idle));
  }

  lemma PlainsClean(cfg: Scheduling, w: World, ev: Event)
    ensures Clean(cfg, w, Plain(ev))
  {
  }

  lemma FirstReap(cfg: Scheduling, st: State, c: string, o: Oracle)
    requires c in st.procs && st.procs[c].cmd != 0 && !st.procs[c].sleeping && o.listening == {} && st.failCount == map[]
    ensures var st' := Reap(cfg, st, c, st.procs[c].cmd, o).(flight := Idle);
      !Runs(st', c) && c in st'.failCount && st'.failCount[c] == 1
  {
  }

  /** Of two on-demand models of one card the first is still loading when the second is
      asked for: in some run from the initial state the first one ends up undead. */
  lemma LateMarkRun(cfg: Scheduling, v: string, k: string, o: Oracle, p: Oracle) returns (acts: seq<Act>, w: World)
    requires Good(cfg) && Served(cfg, v) && Served(cfg, k) && v != k && SameCard(cfg, k, v)
    requires At(cfg, v).mode == Background && At(cfg, k).mode == Background && !InGroup(cfg, v) && !InGroup(cfg, k)
    requires !At(cfg, v).resident && Starts(cfg, v, o) && IsGroup(cfg, o.group)
    ensures CanAll(cfg, START, acts) && After(cfg, START, acts) == w && CallersClean(cfg, START, acts)
    ensures Undead(w.st, v) && !Runs(w.st, v)
  {
    hide Leads, Can, Next, Clean, CanAll, After, CallersClean, Sound, WorldOK, Undead, Starts, Evicts, GuardHolds, InTime;
    StartLeads(cfg);
    acts, w := KnockFresh(cfg, [], START, v);
    acts, w := FirstLoads(cfg, acts, w, v, o);
    acts, w := KnockLoading(cfg, acts, w, v, k);
    OwnerLoading(cfg, w.st, v, k, o);
    LeadsOK(cfg, acts, w);
    LeadsAfter(cfg, acts, w);
    LateMarkComesTrue(cfg, w, k, o, p);
    var more := [Break(Ticket(k, ToOnDemand), o), Late(v, p), Shut(o)];
    Appended(cfg, START, acts, more);
    acts, w := acts + more, After(cfg, w, more);
  }

  /** v alone has a slot; its command runs and it is not ready. */
  predicate Loading(st: State, v: string) {
    && st.procs.Keys == {v} && st.procs[v].cmd != 0 && !st.procs[v].readyOK
    && st.nextRestartAt == map[] && st.flight == Idle
  }

  lemma FirstLoads(cfg: Scheduling, acts: seq<Act>, w: World, v: string, o: Oracle) returns (more: seq<Act>, w': World)
    requires Good(cfg) && Leads(cfg, acts, w) && w.halt == NoHalt && Fresh(w.st) && At(cfg, v).mode == Background
    requires Ticket(v, ToOnDemand) in w.queue && Starts(cfg, v, o) && IsGroup(cfg, o.group)
    ensures Leads(cfg, more, w') && w'.halt == NoHalt && Loading(w'.st, v)
  {
    hide Leads, Can, Next, Clean, Starts, LaunchAlone;
    var turn := Serve(Ticket(v, ToOnDemand), o);
    var w1 := World(LaunchAlone(cfg, w.st, v, o), NoHalt, w.queue - multiset{Ticket(v, ToOnDemand)});
    LeadsInv(cfg, acts, w);
    FreshOnDemand(cfg, w, v, o);
    Leads1(cfg, acts, w, turn);
    FreshLoads(cfg, w.st, v, o);
    FinishActs(cfg, w1, o);
    Leads1(cfg, acts + [turn], w1, Plain(Finish([], o)));
    more, w' := acts + [turn] + [Plain(Finish([], o))], w1.(st := w1.st.(flight := Idle));
  }

  lemma LeadsInv(cfg: Scheduling, acts: seq<Act>, w: World)
    requires Leads(cfg, acts, w) && w.halt == NoHalt
    ensures w.st.nextProc > 0
  {
    hide CanAll, After, CallersClean, WorldOK;
  }

  lemma FreshOnDemand(cfg: Scheduling, w: World, v: string, o: Oracle)
    requires w.halt == NoHalt && Fresh(w.st) && Ticket(v, ToOnDemand) in w.queue && IsGroup(cfg, o.group)
    ensures var a := Serve(Ticket(v, ToOnDemand), o);
      && Can(cfg, w, a) && Clean(cfg, w, a)
      && Next(cfg, w, a) == World(LaunchAlone(cfg, w.st, v, o), NoHalt, w.queue - multiset{Ticket(v, ToOnDemand)})
  {
    hide LaunchAlone;
    assert Owners(cfg, w.st, v) == {};
  }

  lemma FreshLoads(cfg: Scheduling, st: State, v: string, o: Oracle)
    requires Fresh(st) && Starts(cfg, v, o) && st.nextProc > 0
    ensures var st' := LaunchAlone(cfg, st, v, o); st'.flight.Switching? && Loading(st'.(flight := Idle), v)
  {
    FreePortShape(cfg, st, v, o);
    FreePortTables(cfg, st, v, o);
  }

  lemma KnockLoading(cfg: Scheduling, acts: seq<Act>, w: World, v: string, k: string) returns (more: seq<Act>, w': World)
    requires Good(cfg) && Leads(cfg, acts, w) && w.halt == NoHalt && Loading(w.st, v) && At(cfg, v).mode == Background
    requires Served(cfg, k) && k != v && At(cfg, k).mode == Background && !InGroup(cfg, k)
    ensures Leads(cfg, more, w') && w'.halt == NoHalt && Loading(w'.st, v) && Ticket(k, ToOnDemand) in w'.queue
  {
    hide Leads;
    Leads1(cfg, acts, w, Knock(k));
    more, w' := acts + [Knock(k)], Next(cfg, w, Knock(k));
    LoadingKnock(cfg, w.st, v, k);
  }

  lemma LoadingKnock(cfg: Scheduling, st: State, v: string, k: string)
    requires Loading(st, v) && At(cfg, v).mode == Background
    requires Served(cfg, k) && k != v && At(cfg, k).mode == Background && !InGroup(cfg, k)
    ensures TicketFor(cfg, st, k) == Some(ToOnDemand) && Loading(Knocked(cfg, st, k), v)
  {
    assert !CodingRunning(cfg, TouchedBy(cfg, st, k));
  }

  lemma OwnerLoading(cfg: Scheduling, st: State, v: string, k: string, o: Oracle)
    requires Loading(st, v) && SameCard(cfg, k, v) && k != v && !At(cfg, v).resident && At(cfg, v).mode == Background
    ensures !Runs(st, k) && GuardHolds(cfg, st, k) && InTime(cfg, st, k, o)
    ensures Evicts(cfg, st, k, o) && FirstOwner(cfg, st, k, o) == v
  {
    assert v in Owners(cfg, st, k);
    assert Owners(cfg, st, k) == {v};
  }
}
