/** What a request leaves behind: the reply for every state and model, and the state after
    it slot by slot, in terms of fields alone. */
module Outcomes {
  import opened Text
  import opened Config
  import opened Machine
  import opened Invariants
  import opened Steps
  import opened Requests
  import opened Theorems
  import opened Ports
  import opened Aliases

  /** A switch does not stop it: a background model that is resident or declares no GPU. */
  predicate Stays(cfg: Scheduling, id: string) {
    At(cfg, id).mode == Background && (At(cfg, id).resident || At(cfg, id).gpu == "")
  }

  /** Is id's command started when it is launched? */
  predicate Comes(cfg: Scheduling, id: string, o: Oracle) {
    At(cfg, id).command != "" && id in o.starts
  }

  /** id has a slot made between st and st': a channel of its own, open, and a process of
      its own if one was started. */
  ghost predicate NewSlot(st: State, st': State, id: string, up: bool) {
    && id in st'.procs
    && st.nextCh <= st'.procs[id].ch < st'.nextCh && !st'.procs[id].chClosed
    && !st'.procs[id].readyOK && !st'.procs[id].sleeping && st'.procs[id].server == 0
    && if up then st.nextProc <= st'.procs[id].cmd < st'.nextProc else st'.procs[id].cmd == 0
  }

  /** Counters only grow, and only processes launched in between are new. */
  ghost predicate Grown(st: State, st': State) {
    && st.nextCh <= st'.nextCh && 0 < st.nextProc <= st'.nextProc
    && (forall p | p in st'.live && p !in st.live :: st.nextProc <= p < st'.nextProc)
    && (forall p :: p in st.live ==> p < st.nextProc)
  }

  /** Failures, retry times, idle clocks, requests in flight and closed channels stay. */
  ghost predicate SameBooks(st: State, st': State) {
    && st'.failCount == st.failCount && st'.nextRestartAt == st.nextRestartAt
    && st'.lastActiveAt == st.lastActiveAt && st'.inflight == st.inflight
    && st'.closes == st.closes && st'.preempted == st.preempted
    && st'.now == st.now && st'.started == st.started
  }

  lemma FreePortBooks(cfg: Scheduling, st: State, id: string, o: Oracle)
    ensures SameBooks(st, FreePort(cfg, st, id, o)) && FreePort(cfg, st, id, o).flight == st.flight
  {
  }

  lemma LaunchMakes(cfg: Scheduling, st: State, id: string, o: Oracle)
    requires LaunchesOK(st)
    ensures var st' := Launch(cfg, st, id, o);
      && NewSlot(st, st', id, Comes(cfg, id, o)) && Grown(st, st') && SameBooks(st, st')
      && (Comes(cfg, id, o) ==> st'.procs[id].cmd in st'.live)
      && st'.flight == st.flight
  {
    if At(cfg, id).command != "" {
      FreePortShape(cfg, st, id, o);
      FreePortBooks(cfg, st, id, o);
      assert Launch(cfg, st, id, o) == Place(FreePort(cfg, st, id, o), id, id in o.starts);
    }
  }

  // Switches.

  /** What a switch makes of target x: a sleeping one sleeps on, one with a command is left
      alone, one that is down gets a new slot; one of which only the detached server runs is
      left alone too, unless the launch of another target kills that server first. */
  ghost predicate TargetLeft(cfg: Scheduling, st: State, st': State, x: string, o: Oracle) {
    if x in st.procs && (st.procs[x].sleeping || st.procs[x].cmd != 0) then x in st'.procs && st'.procs[x] == st.procs[x]
    else if Runs(st, x) then
      && x in st'.procs
      && (st'.procs[x] == st.procs[x] || (st.procs[x].server !in st'.live && NewSlot(st, st', x, Comes(cfg, x, o))))
    else NewSlot(st, st', x, Comes(cfg, x, o))
  }

  lemma TargetMakes(cfg: Scheduling, st: State, x: string, o: Oracle)
    requires LaunchesOK(st)
    ensures var st' := Target(cfg, st, x, o);
      && TargetLeft(cfg, st, st', x, o) && Grown(st, st') && SameBooks(st, st') && st'.flight == st.flight
  {
    hide Launch;
    LaunchMakes(cfg, st, x, o);
  }

  lemma NewSlotLater(st: State, s1: State, st': State, x: string, up: bool)
    requires (NewSlot(st, s1, x, up) && x in st'.procs && st'.procs[x] == s1.procs[x]) || NewSlot(s1, st', x, up)
    requires st.nextCh <= s1.nextCh <= st'.nextCh && st.nextProc <= s1.nextProc <= st'.nextProc
    ensures NewSlot(st, st', x, up)
  {
  }

  lemma DeadStaysDead(st: State, st': State, p: nat)
    requires Grown(st, st') && p < st.nextProc && p !in st.live
    ensures p !in st'.live
  {
  }

  /** The targets' fates compose: first x itself, then the others. */
  lemma FirstTarget(cfg: Scheduling, st: State, s1: State, st': State, x: string, o: Oracle)
    requires LaunchesOK(st) && TargetLeft(cfg, st, s1, x, o) && Grown(st, s1) && Grown(s1, st')
    requires x in st'.procs && st'.procs[x] == s1.procs[x]
    ensures TargetLeft(cfg, st, st', x, o)
  {
    if NewSlot(st, s1, x, Comes(cfg, x, o)) {
      NewSlotLater(st, s1, st', x, Comes(cfg, x, o));
    }
  }

  lemma LaterTarget(cfg: Scheduling, st: State, s1: State, st': State, x: string, o: Oracle)
    requires LaunchesOK(st) && TargetLeft(cfg, s1, st', x, o) && Grown(st, s1) && Grown(s1, st')
    requires (x in s1.procs <==> x in st.procs) && (x in st.procs ==> s1.procs[x] == st.procs[x])
    ensures TargetLeft(cfg, st, st', x, o)
  {
    if NewSlot(s1, st', x, Comes(cfg, x, o)) {
      NewSlotLater(st, s1, st', x, Comes(cfg, x, o));
    }
    if Runs(st, x) && !Runs(s1, x) {
      DeadStaysDead(s1, st', st.procs[x].server);
    }
  }

  lemma TargetLaunches(cfg: Scheduling, st: State, x: string, o: Oracle)
    requires LaunchesOK(st)
    ensures LaunchesOK(Target(cfg, st, x, o))
  {
    var s1 := FreePort(cfg, st, x, o);
    FreePortShape(cfg, st, x, o);
    PlaceLaunches(st, x, false);
    PlaceLaunches(s1, x, x in o.starts);
  }

  predicate Distinct(ids: seq<string>) {
    forall i, j :: 0 <= i < j < |ids| ==> ids[i] != ids[j]
  }

  lemma {:induction false} TargetsMake(cfg: Scheduling, st: State, ids: seq<string>, o: Oracle)
    requires LaunchesOK(st) && Distinct(ids)
    ensures var st' := Targets(cfg, st, ids, o);
      && (forall x :: x in ids ==> TargetLeft(cfg, st, st', x, o))
      && Grown(st, st') && SameBooks(st, st') && st'.flight == st.flight
    decreases |ids|
  {
    hide Target, TargetLeft, Grown, SameBooks, LaunchesOK;
    if ids == [] {
      NothingMade(st);
    } else {
      var x, rest := ids[0], ids[1..];
      var s1 := Target(cfg, st, x, o);
      var st' := Targets(cfg, s1, rest, o);
      TargetMakes(cfg, st, x, o);
      TargetLaunches(cfg, st, x, o);
      TargetsMake(cfg, s1, rest, o);
      TargetShape(cfg, st, x, o);
      TargetsShape(cfg, s1, rest, o);
      BooksCompose(st, s1, st');
      assert x !in rest;
      FirstTarget(cfg, st, s1, st', x, o);
      forall y | y in ids && y != x ensures TargetLeft(cfg, st, st', y, o) {
        assert y in rest;
        LaterTarget(cfg, st, s1, st', y, o);
      }
    }
  }

  lemma NothingMade(st: State)
    requires LaunchesOK(st)
    ensures Grown(st, st) && SameBooks(st, st)
  {
  }

  lemma BooksCompose(st: State, s1: State, st': State)
    requires Grown(st, s1) && Grown(s1, st') && SameBooks(st, s1) && SameBooks(s1, st')
    ensures Grown(st, st') && SameBooks(st, st')
  {
  }

  /** Launching k clears its port of the server of x. */
  predicate Clears(cfg: Scheduling, k: string, x: string) {
    k != x && At(cfg, k).command != "" && At(cfg, k).port > 0 && At(cfg, k).port == At(cfg, x).port
  }

  /** The registers after a switch to ids: the coding model, the lease, the slots that are
      expected, and what is waited for. */
  ghost predicate Registered(cfg: Scheduling, st: State, st': State, ids: set<string>, coding: string) {
    && st'.codingModel == coding && st'.lastCodingAt == (if coding == "" then st.lastCodingAt else st.now)
    && st'.flight.Switching? && !st'.flight.cancelled && st'.flight.ids == ids
    && st'.flight.mode == (if coding == "" then Background else Coding)
    && st'.flight.target == (if coding == "" then "group" else coding)
    && (forall x | x in ids :: x in st'.flight.wait <==> !(Asleep(st, x) && Stays(cfg, x)))
    && (forall x :: x in st'.procs <==> x in ids || (x in st.procs && Stays(cfg, x)))
    && (forall x :: x in st'.expected <==> x in st'.procs)
  }

  /** The processes after it: those of the models that do not stay are gone, and one that
      stays is lost only to a launch on its port. */
  ghost predicate Halted(cfg: Scheduling, st: State, st': State, ids: set<string>, o: Oracle) {
    && (forall x | x in st.procs && !Stays(cfg, x) && st.procs[x].Proc() != 0 :: st.procs[x].Proc() !in st'.live)
    && (forall x | x in st.procs && Stays(cfg, x) && st.procs[x].Proc() in st.live - st'.live ::
          exists k :: k in ids && Clears(cfg, k, x) && st.procs[x].Proc() in o.listening)
    && Grown(st, st')
  }

  /** After a switch to ids: the registers and the processes; each slot that stays and is no
      target as it was, each target as TargetLeft says of the slots that stay. */
  ghost predicate Switched(cfg: Scheduling, st: State, st': State, ids: set<string>, coding: string, o: Oracle) {
    && Registered(cfg, st, st', ids, coding) && Halted(cfg, st, st', ids, o) && SameBooks(st, st')
    && (forall x | x in st.procs && x !in ids && Stays(cfg, x) :: x in st'.procs && st'.procs[x] == st.procs[x])
    && (forall x :: x in ids ==> TargetLeft(cfg, OnlyStayers(cfg, st), st', x, o))
  }

  /** The slots that stay. */
  ghost function OnlyStayers(cfg: Scheduling, st: State): State {
    st.(procs := map x | x in st.procs && Stays(cfg, x) :: st.procs[x])
  }

  lemma FreePortSpares(cfg: Scheduling, st: State, k: string, o: Oracle, x: string)
    requires LaunchesOK(st) && x in st.procs && st.procs[x].Proc() in st.live
    ensures st.procs[x].Proc() !in FreePort(cfg, st, k, o).live <==>
      k != x && At(cfg, k).port == At(cfg, x).port && At(cfg, x).port > 0 && st.procs[x].Proc() in o.listening
  {
    var victims := PortVictims(cfg, st, k, o);
    if x in victims {
      assert st.procs[x].Proc() in (set v | v in victims :: st.procs[v].Proc());
    }
  }

  lemma LaunchSpares(cfg: Scheduling, st: State, k: string, o: Oracle, x: string)
    requires LaunchesOK(st) && x in st.procs && st.procs[x].Proc() in st.live
    ensures st.procs[x].Proc() !in Launch(cfg, st, k, o).live <==> Clears(cfg, k, x) && st.procs[x].Proc() in o.listening
  {
    hide Listens, PortVictims;
    FreePortSpares(cfg, st, k, o, x);
    FreePortShape(cfg, st, k, o);
  }

  lemma {:induction false} TargetsSpare(cfg: Scheduling, st: State, ids: seq<string>, o: Oracle, x: string)
    requires LaunchesOK(st) && x in st.procs && st.procs[x].Proc() in st.live
    requires st.procs[x].Proc() !in Targets(cfg, st, ids, o).live
    ensures exists k :: k in ids && Clears(cfg, k, x) && st.procs[x].Proc() in o.listening
    decreases |ids|
  {
    hide Launch, Clears, LaunchesOK;
    if ids != [] {
      var k, s1 := ids[0], Target(cfg, st, ids[0], o);
      TargetLaunches(cfg, st, k, o);
      TargetShape(cfg, st, k, o);
      if st.procs[x].Proc() !in s1.live {
        LaunchSpares(cfg, st, k, o, x);
        assert k in ids;
      } else {
        LiveSlotKept(cfg, st, k, o, x);
        TargetsSpare(cfg, s1, ids[1..], o, x);
        var k' :| k' in ids[1..] && Clears(cfg, k', x);
        assert k' in ids;
      }
    }
  }

  lemma LiveSlotKept(cfg: Scheduling, st: State, k: string, o: Oracle, x: string)
    requires LaunchesOK(st) && x in st.procs && st.procs[x].Proc() in st.live
    ensures var s1 := Target(cfg, st, k, o); x in s1.procs && s1.procs[x] == st.procs[x]
  {
    TargetShape(cfg, st, k, o);
    assert Runs(st, x);
  }

  lemma StopAllMakes(cfg: Scheduling, st: State)
    requires LaunchesOK(st)
    ensures var s0 := StopAll(cfg, st);
      && s0.procs == OnlyStayers(cfg, st).procs && Grown(st, s0) && SameBooks(st, s0)
      && s0.nextCh == st.nextCh && s0.nextProc == st.nextProc && s0.flight == st.flight
  {
  }

  lemma StopAllStops(cfg: Scheduling, st: State, x: string)
    requires LaunchesOK(st) && x in st.procs && st.procs[x].Proc() != 0
    ensures st.procs[x].Proc() in StopAll(cfg, st).live <==> Stays(cfg, x) && st.procs[x].Proc() in st.live
  {
    var gone := set id | id in st.procs && !Survives(cfg, id) :: st.procs[id].Proc();
    assert !Stays(cfg, x) ==> st.procs[x].Proc() in gone;
  }

  lemma SameTargetLeft(cfg: Scheduling, st: State, s0: State, st': State, x: string, o: Oracle)
    requires TargetLeft(cfg, s0, st', x, o) && s0.procs == OnlyStayers(cfg, st).procs
    requires s0.nextCh == st.nextCh && s0.nextProc == st.nextProc
    requires forall y | y in st.procs && Stays(cfg, y) :: st.procs[y].Proc() in s0.live <==> st.procs[y].Proc() in st.live
    ensures TargetLeft(cfg, OnlyStayers(cfg, st), st', x, o)
  {
  }

  lemma SwitchRegisters(cfg: Scheduling, st: State, ids: seq<string>, mode: Mode, o: Oracle)
    requires Good(cfg) && Inv(cfg, st) && GoodTarget(cfg, ids, mode)
    ensures Registered(cfg, st, SwitchTo(cfg, st, ids, mode, o), (set x | x in ids), if mode == Coding then ids[0] else "")
  {
    hide Targets, StopAll, Core, CodingOK, LaunchesOK, Good;
    var st' := SwitchTo(cfg, st, ids, mode, o);
    SwitchShape(cfg, st, ids, mode, o);
    SwitchInv(cfg, st, ids, mode, o);
    ExpectedAreKeys(cfg, st');
    assert Register(Targets(cfg, StopAll(cfg, st), ids, o), ids, mode).procs == st'.procs;
  }

  lemma ExpectedAreKeys(cfg: Scheduling, st: State)
    requires Inv(cfg, st)
    ensures st.expected == st.procs.Keys
  {
  }

  lemma SwitchStops(cfg: Scheduling, st: State, ids: seq<string>, mode: Mode, o: Oracle)
    requires LaunchesOK(st) && Distinct(ids) && ids != []
    ensures var st' := SwitchTo(cfg, st, ids, mode, o); Halted(cfg, st, st', (set x | x in ids), o) && SameBooks(st, st')
  {
    hide Targets, StopAll, LaunchesOK, Clears, Stays;
    var s0 := StopAll(cfg, st);
    var s1 := Targets(cfg, s0, ids, o);
    StopAllMakes(cfg, st);
    StopAllLaunches(cfg, st);
    TargetsMake(cfg, s0, ids, o);
    BooksCompose(st, s0, s1);
    forall x | x in st.procs && st.procs[x].Proc() != 0 && st.procs[x].Proc() in st.live - s1.live && Stays(cfg, x)
      ensures exists k :: k in ids && Clears(cfg, k, x) && st.procs[x].Proc() in o.listening
    {
      StopAllStops(cfg, st, x);
      TargetsSpare(cfg, s0, ids, o, x);
    }
    forall x | x in st.procs && st.procs[x].Proc() != 0 && !Stays(cfg, x) ensures st.procs[x].Proc() !in s1.live {
      StopAllStops(cfg, st, x);
      ProcBelow(st, x);
      DeadStaysDead(s0, s1, st.procs[x].Proc());
    }
    LiveNotZero(st);
  }

  lemma ProcBelow(st: State, x: string)
    requires LaunchesOK(st) && x in st.procs
    ensures st.procs[x].Proc() < st.nextProc
  {
  }

  lemma LiveNotZero(st: State)
    requires LaunchesOK(st)
    ensures 0 !in st.live
  {
  }

  lemma SwitchMakes(cfg: Scheduling, st: State, ids: seq<string>, mode: Mode, o: Oracle)
    requires Good(cfg) && Inv(cfg, st) && GoodTarget(cfg, ids, mode)
    ensures Switched(cfg, st, SwitchTo(cfg, st, ids, mode, o), (set x | x in ids), if mode == Coding then ids[0] else "", o)
  {
    hide Targets, StopAll, TargetLeft, Core, CodingOK, FlightOK, Clears, LaunchesOK, Registered, Halted, Good, Inv, SameBooks;
    assert LaunchesOK(st) by { CoreLaunches(cfg, st); }
    var s0 := StopAll(cfg, st);
    var s1 := Targets(cfg, s0, ids, o);
    var st' := Register(s1, ids, mode);
    SwitchRegisters(cfg, st, ids, mode, o);
    assert Distinct(ids);
    SwitchStops(cfg, st, ids, mode, o);
    StopAllMakes(cfg, st);
    StopAllLaunches(cfg, st);
    TargetsMake(cfg, s0, ids, o);
    SwitchShape(cfg, st, ids, mode, o);
    forall x | x in ids ensures TargetLeft(cfg, OnlyStayers(cfg, st), st', x, o) {
      StayersLive(cfg, st);
      SameTargetLeft(cfg, st, s0, s1, x, o);
      TargetLeftFields(cfg, OnlyStayers(cfg, st), s1, st', x, o);
    }
  }

  lemma CoreLaunches(cfg: Scheduling, st: State)
    requires Inv(cfg, st)
    ensures LaunchesOK(st)
  {
  }

  lemma StayersLive(cfg: Scheduling, st: State)
    requires LaunchesOK(st)
    ensures forall y | y in st.procs && Stays(cfg, y) ::
      st.procs[y].Proc() in StopAll(cfg, st).live <==> st.procs[y].Proc() in st.live
  {
    hide StopAll, Stays;
    forall y | y in st.procs && Stays(cfg, y)
      ensures st.procs[y].Proc() in StopAll(cfg, st).live <==> st.procs[y].Proc() in st.live
    {
      if st.procs[y].Proc() != 0 {
        StopAllStops(cfg, st, y);
      } else {
        StopAllLaunches(cfg, st);
        LiveNotZero(st);
        LiveNotZero(StopAll(cfg, st));
      }
    }
  }

  lemma TargetLeftFields(cfg: Scheduling, st: State, s1: State, st': State, x: string, o: Oracle)
    requires TargetLeft(cfg, st, s1, x, o) && st'.procs == s1.procs && st'.live == s1.live
    requires st'.nextCh == s1.nextCh && st'.nextProc == s1.nextProc
    ensures TargetLeft(cfg, st, st', x, o)
  {
  }

  // Launching one model beside the others.

  /** id's card is taken by x, which runs. */
  predicate Holds(cfg: Scheduling, st: State, x: string, id: string) {
    x != id && Runs(st, x) && SameCard(cfg, id, x)
  }

  /** A resident model holds the card. */
  ghost predicate CardKept(cfg: Scheduling, st: State, id: string) {
    exists x :: Holds(cfg, st, x, id) && At(cfg, x).resident
  }

  /** x was put to sleep between st and st': stopped, behind a fresh open channel. */
  ghost predicate PutToSleep(st: State, st': State, x: string) {
    && x in st.procs && x in st'.procs && st'.procs[x].sleeping && !st'.procs[x].readyOK
    && st'.procs[x].cmd == 0 && st'.procs[x].server == 0 && st.procs[x].Proc() !in st'.live
    && st.nextCh <= st'.procs[x].ch < st'.nextCh && !st'.procs[x].chClosed
    && x !in st'.failCount && x !in st'.nextRestartAt
  }

  /** What making room for id does to the other slots: the holder of its card is put to
      sleep, the servers that listen on its port are killed if a command is to start, and
      nothing else happens to anybody. */
  ghost predicate MadeRoom(cfg: Scheduling, st: State, st': State, id: string, o: Oracle) {
    && (forall x :: x in st'.procs <==> x in st.procs || x == id)
    && (forall x | x in st.procs && x != id ::
          if Holds(cfg, st, x, id) then PutToSleep(st, st', x) else st'.procs[x] == st.procs[x])
    && (forall x | x in st.procs && x != id && st.procs[x].Proc() in st.live :: st.procs[x].Proc() !in st'.live <==>
          Holds(cfg, st, x, id) || (Clears(cfg, id, x) && st.procs[x].Proc() in o.listening))
    && (forall x | !Holds(cfg, st, x, id) ::
          && (x in st'.failCount <==> x in st.failCount) && (x in st.failCount ==> st'.failCount[x] == st.failCount[x])
          && (x in st'.nextRestartAt <==> x in st.nextRestartAt)
          && (x in st.nextRestartAt ==> st'.nextRestartAt[x] == st.nextRestartAt[x]))
    && st'.lastActiveAt == st.lastActiveAt && st'.inflight == st.inflight && st'.closes == st.closes
    && st'.preempted == st.preempted && st'.now == st.now && st'.started == st.started
    && st'.codingModel == st.codingModel && st'.lastCodingAt == st.lastCodingAt
    && Grown(st, st')
  }

  /** Only the holder of the card changes, as MadeRoom says. */
  lemma AcquireMakes(cfg: Scheduling, st: State, id: string, o: Oracle)
    requires Core(cfg, st) && Acquire(cfg, st, id, o).Some?
    ensures var s1 := Acquire(cfg, st, id, o).value;
      && (forall x | x in st.procs ::
            if Holds(cfg, st, x, id) then PutToSleep(st, s1, x) else x in s1.procs && s1.procs[x] == st.procs[x])
      && (forall x | x in st.procs && st.procs[x].Proc() in st.live ::
            st.procs[x].Proc() !in s1.live <==> Holds(cfg, st, x, id))
  {
    hide OneOwner, Lifecycle, BackoffOK, KeysOK;
    var s1 := Acquire(cfg, st, id, o).value;
    if At(cfg, id).gpu != "" && Owners(cfg, st, id) != {} {
      var v := FirstOwner(cfg, st, id, o);
      assert Holds(cfg, st, v, id);
      forall x | Holds(cfg, st, x, id) ensures x == v {
        assert x in Owners(cfg, st, id);
        ScanSuffices(cfg, st, id, o);
      }
    } else {
      assert forall x :: Holds(cfg, st, x, id) ==> x in Owners(cfg, st, id);
    }
  }

  lemma AcquireRest(cfg: Scheduling, st: State, id: string, o: Oracle)
    requires Core(cfg, st) && Acquire(cfg, st, id, o).Some?
    ensures var s1 := Acquire(cfg, st, id, o).value;
      && s1.procs.Keys == st.procs.Keys && s1.expected == st.expected
      && (forall x | !Holds(cfg, st, x, id) ::
            && (x in s1.failCount <==> x in st.failCount) && (x in st.failCount ==> s1.failCount[x] == st.failCount[x])
            && (x in s1.nextRestartAt <==> x in st.nextRestartAt)
            && (x in st.nextRestartAt ==> s1.nextRestartAt[x] == st.nextRestartAt[x]))
      && s1.lastActiveAt == st.lastActiveAt && s1.inflight == st.inflight && s1.closes == st.closes
      && s1.preempted == st.preempted && s1.now == st.now && s1.started == st.started
      && s1.codingModel == st.codingModel && s1.lastCodingAt == st.lastCodingAt && s1.flight == st.flight
      && Grown(st, s1) && s1.nextProc == st.nextProc
  {
    hide OneOwner, Lifecycle, BackoffOK, KeysOK;
    if At(cfg, id).gpu != "" && Owners(cfg, st, id) != {} {
      assert Holds(cfg, st, FirstOwner(cfg, st, id, o), id);
    }
  }

  lemma AcquiresUnlessKept(cfg: Scheduling, st: State, id: string, o: Oracle)
    requires Core(cfg, st)
    ensures Acquire(cfg, st, id, o).Some? <==> !CardKept(cfg, st, id)
  {
    hide Core, Acquire;
    AcquiresExactlyWhen(cfg, st, id, o);
    if At(cfg, id).gpu != "" {
      assert forall x :: Holds(cfg, st, x, id) <==> x in Owners(cfg, st, id);
    }
  }

  /** From s1, where the card is free, to st', where id may have a new process. */
  ghost predicate ClearedPort(cfg: Scheduling, s1: State, st': State, id: string, o: Oracle) {
    && (forall x :: x in st'.procs <==> x in s1.procs || x == id)
    && (forall x | x in s1.procs && x != id :: st'.procs[x] == s1.procs[x])
    && (forall x | x in s1.procs && x != id && s1.procs[x].Proc() in s1.live ::
          s1.procs[x].Proc() !in st'.live <==> Clears(cfg, id, x) && s1.procs[x].Proc() in o.listening)
    && SameBooks(s1, st') && Grown(s1, st') && st'.codingModel == s1.codingModel && st'.lastCodingAt == s1.lastCodingAt
  }

  lemma RoomIsMade(cfg: Scheduling, st: State, id: string, o: Oracle, st': State)
    requires Core(cfg, st) && Acquire(cfg, st, id, o).Some? && ClearedPort(cfg, Acquire(cfg, st, id, o).value, st', id, o)
    ensures MadeRoom(cfg, st, st', id, o)
  {
    hide Acquire, OneOwner, Lifecycle, BackoffOK, KeysOK, Clears, Holds;
    var s1 := Acquire(cfg, st, id, o).value;
    AcquireMakes(cfg, st, id, o);
    AcquireRest(cfg, st, id, o);
    forall x | x in st.procs && x != id && Holds(cfg, st, x, id) ensures PutToSleep(st, st', x) {
      assert st.procs[x].Proc() < st.nextProc;
    }
    forall x | x in st.procs && x != id && st.procs[x].Proc() in st.live
      ensures st.procs[x].Proc() !in st'.live <==>
        Holds(cfg, st, x, id) || (Clears(cfg, id, x) && st.procs[x].Proc() in o.listening)
    {
      assert st.procs[x].Proc() < st.nextProc;
    }
  }

  lemma LaunchClears(cfg: Scheduling, s1: State, id: string, o: Oracle)
    requires LaunchesOK(s1)
    ensures ClearedPort(cfg, s1, AwaitAlone(Launch(cfg, s1, id, o), id), id, o)
  {
    hide Launch, LaunchesOK, Clears;
    var st' := Launch(cfg, s1, id, o);
    LaunchMakes(cfg, s1, id, o);
    LaunchShape(cfg, s1, id, o);
    forall x | x in s1.procs && x != id && s1.procs[x].Proc() in s1.live
      ensures s1.procs[x].Proc() !in st'.live <==> Clears(cfg, id, x) && s1.procs[x].Proc() in o.listening
    {
      LaunchSpares(cfg, s1, id, o, x);
    }
  }

  lemma RerunMakes(st: State, id: string)
    requires LaunchesOK(st) && id in st.procs
    ensures var st' := Rerun(st, id);
      && st'.procs == st.procs[id := st.procs[id].(cmd := st.nextProc, readyOK := false, sleeping := false)]
      && st'.live == st.live + {st.nextProc} && Grown(st, st') && SameBooks(st, st') && st'.flight == st.flight
      && st'.codingModel == st.codingModel && st'.lastCodingAt == st.lastCodingAt && st'.expected == st.expected
  {
  }

  lemma RelaunchClears(cfg: Scheduling, s1: State, id: string, o: Oracle)
    requires LaunchesOK(s1) && id in s1.procs && At(cfg, id).command != ""
    ensures var st' := Relaunch(cfg, s1, id, o);
      && ClearedPort(cfg, s1, st', id, o) && st'.flight == s1.flight && st'.expected == s1.expected
      && st'.procs[id] == (if id in o.starts then s1.procs[id].(cmd := s1.nextProc, readyOK := false, sleeping := false) else s1.procs[id])
      && (id in o.starts ==> s1.nextProc in st'.live)
  {
    hide FreePort, Rerun;
    var s2, st' := FreePort(cfg, s1, id, o), Relaunch(cfg, s1, id, o);
    FreePortShape(cfg, s1, id, o);
    FreePortBooks(cfg, s1, id, o);
    FreePortCounters(cfg, s1, id, o);
    if id in o.starts {
      RerunMakes(s2, id);
      BooksCompose(s1, s2, st');
    }
    forall x | x in s1.procs && x != id && s1.procs[x].Proc() in s1.live
      ensures s1.procs[x].Proc() !in st'.live <==> Clears(cfg, id, x) && s1.procs[x].Proc() in o.listening
    {
      FreePortSpares(cfg, s1, id, o, x);
    }
  }

  lemma FreePortCounters(cfg: Scheduling, st: State, id: string, o: Oracle)
    requires LaunchesOK(st)
    ensures var st' := FreePort(cfg, st, id, o); LaunchesOK(st') && Grown(st, st')
  {
  }

  /** A request launched id alone: room was made, id has a new slot, and is waited for. */
  ghost predicate LaunchedAlone(cfg: Scheduling, st: State, st': State, id: string, o: Oracle) {
    && MadeRoom(cfg, st, st', id, o) && NewSlot(st, st', id, Comes(cfg, id, o))
    && (Comes(cfg, id, o) ==> st'.procs[id].cmd in st'.live)
    && (forall x :: x in st'.expected <==> x in st'.procs)
    && st'.flight == Switching(id, Background, {id}, {id}, false)
  }

  lemma AloneMakes(cfg: Scheduling, st: State, id: string, o: Oracle)
    requires Core(cfg, st) && Acquire(cfg, st, id, o).Some?
    ensures LaunchedAlone(cfg, st, LaunchAlone(cfg, Acquire(cfg, st, id, o).value, id, o), id, o)
  {
    hide Acquire, Launch, OneOwner, Lifecycle, BackoffOK, MadeRoom;
    var s1 := Acquire(cfg, st, id, o).value;
    var st' := LaunchAlone(cfg, s1, id, o);
    AcquireCore(cfg, st, id, o);
    AcquireRest(cfg, st, id, o);
    LaunchClears(cfg, s1, id, o);
    RoomIsMade(cfg, st, id, o, st');
    LaunchMakes(cfg, s1, id, o);
    NewSlotLater(st, s1, Launch(cfg, s1, id, o), id, Comes(cfg, id, o));
    LaunchShape(cfg, s1, id, o);
    LaunchExpects(cfg, s1, id, o);
  }

  lemma LaunchExpects(cfg: Scheduling, st: State, id: string, o: Oracle)
    ensures Launch(cfg, st, id, o).expected == st.expected + {id}
  {
    hide FreePort;
    FreePortShape(cfg, st, id, o);
  }

  /** id, a slot without a process, is due for a restart. */
  ghost predicate Due(cfg: Scheduling, st: State, id: string) {
    && id in st.procs && !Runs(st, id) && At(cfg, id).mode == Background && At(cfg, id).command != ""
    && !BackingOff(st, id) && !CardKept(cfg, st, id)
  }

  predicate BackingOff(st: State, id: string) {
    id in st.nextRestartAt && st.now < st.nextRestartAt[id]
  }

  /** A restart of id, where one was due: room was made, and if its command started the slot
      has the next process behind its old channel, awake and unready. */
  ghost predicate Restarted(cfg: Scheduling, st: State, st': State, id: string, o: Oracle) {
    if !Due(cfg, st, id) then st' == st
    else
      && MadeRoom(cfg, st, st', id, o) && st'.flight == st.flight && st'.expected == st.expected
      && st'.procs[id] == (if id in o.starts then st.procs[id].(cmd := st.nextProc, readyOK := false, sleeping := false) else st.procs[id])
      && (id in o.starts ==> st.nextProc in st'.live)
  }

  lemma RestartMakes(cfg: Scheduling, st: State, id: string, o: Oracle)
    requires Core(cfg, st)
    ensures Restarted(cfg, st, Restart(cfg, st, id, o), id, o)
  {
    hide Acquire, Relaunch, OneOwner, Lifecycle, BackoffOK, MadeRoom, CardKept;
    AcquiresUnlessKept(cfg, st, id, o);
    if Due(cfg, st, id) {
      var s1 := Acquire(cfg, st, id, o).value;
      AcquireCore(cfg, st, id, o);
      AcquireRest(cfg, st, id, o);
      AcquireMakes(cfg, st, id, o);
      RelaunchClears(cfg, s1, id, o);
      RoomIsMade(cfg, st, id, o, Relaunch(cfg, s1, id, o));
    }
  }

  // Requests.

  ghost predicate CodingUp(cfg: Scheduling, st: State) {
    exists c :: Runs(st, c) && At(cfg, c).mode == Coding
  }

  /** The id can be asked for, and the proxy does not turn the request away in favour of a
      running coding model. */
  ghost predicate Admits(cfg: Scheduling, st: State, id: string) {
    && Known(cfg, id) && id != "" && id != PROXY_MODEL_ID
    && (At(cfg, id).mode == Background && !Stays(cfg, id) ==> !CodingUp(cfg, st))
  }

  /** A startup member is served by switching the whole set in unless it has a slot and is
      resident or no coding model is registered. */
  predicate ByGroup(cfg: Scheduling, st: State, id: string) {
    InGroup(cfg, id) && !(id in st.procs && (At(cfg, id).resident || st.codingModel == ""))
  }

  /** The proxy notes coding traffic, or when the model was last asked for. */
  function Noted(cfg: Scheduling, st: State, id: string): State {
    if !Known(cfg, id) || id == "" || id == PROXY_MODEL_ID then st
    else if At(cfg, id).mode == Coding then st.(lastCodingAt := st.now)
    else if At(cfg, id).mode == Background then st.(lastActiveAt := st.lastActiveAt[id := st.now])
    else st
  }

  lemma NotedSame(cfg: Scheduling, st: State, id: string)
    ensures var s1 := Noted(cfg, st, id);
      && (Admits(cfg, s1, id) <==> Admits(cfg, st, id)) && (ByGroup(cfg, s1, id) <==> ByGroup(cfg, st, id))
      && (Runs(s1, id) <==> Runs(st, id)) && (CardKept(cfg, s1, id) <==> CardKept(cfg, st, id))
      && (BackingOff(s1, id) <==> BackingOff(st, id)) && (Asleep(s1, id) <==> Asleep(st, id))
      && (At(cfg, id).mode != Coding ==> (OnLease(cfg, s1) <==> OnLease(cfg, st)))
      && s1.flight == st.flight && s1.codingModel == st.codingModel
  {
    hide Noted;
    var s1 := Noted(cfg, st, id);
    NotedTables(cfg, st, id);
    assert forall x :: Runs(s1, x) <==> Runs(st, x);
    assert forall x :: Holds(cfg, s1, x, id) <==> Holds(cfg, st, x, id);
  }

  lemma NotedTables(cfg: Scheduling, st: State, id: string)
    ensures var s1 := Noted(cfg, st, id);
      && s1.procs == st.procs && s1.live == st.live && s1.flight == st.flight && s1.codingModel == st.codingModel
      && s1.nextRestartAt == st.nextRestartAt && s1.now == st.now && s1.preempted == st.preempted
      && (At(cfg, id).mode != Coding ==> s1.lastCodingAt == st.lastCodingAt)
  {
    hide At, Known;
    var s1 := Noted(cfg, st, id);
    assert s1 == st || s1 == st.(lastCodingAt := st.now) || s1 == st.(lastActiveAt := s1.lastActiveAt);
  }

  lemma CodingUpIs(cfg: Scheduling, st: State)
    ensures CodingUp(cfg, st) <==> CodingRunning(cfg, st)
  {
    if c :| Runs(st, c) && At(cfg, c).mode == Coding {
      assert c in st.procs;
    }
  }

  lemma RequestIsNoted(cfg: Scheduling, st: State, id: string, o: Oracle)
    requires Good(cfg)
    ensures Request(cfg, st, id, o) ==
      if Known(cfg, id) && id != "" && id != PROXY_MODEL_ID then Guarded(cfg, Noted(cfg, st, id), id, o) else (st, Refused)
    ensures Known(cfg, id) ==> At(cfg, id).mode in {Coding, Background}
  {
    hide Guarded;
    if Known(cfg, id) {
      KnownMode(cfg, id);
    }
  }

  /** A background request cancels nothing; a coding one the switch that is registered,
      unless that is to the same model. */
  predicate Cancels(cfg: Scheduling, st: State, id: string) {
    && At(cfg, id).mode == Coding && st.flight.Switching?
    && (st.flight.mode == Background || st.flight.target != id)
  }

  /** Who waits for switchMu may have cancelled the switch that holds it. */
  ghost predicate Knocked(cfg: Scheduling, st: State, st': State, id: string) {
    st' == if Cancels(cfg, st, id) then st.(preempted := true, flight := st.flight.(cancelled := true)) else st
  }

  lemma PreemptCancels(cfg: Scheduling, st: State, id: string)
    requires FlightOK(st) && st.flight.Switching? && id != "" && At(cfg, id).mode in {Coding, Background}
    ensures Knocked(cfg, st, Preempt(st, At(cfg, id).mode, id), id)
  {
  }

  lemma CodingReply(cfg: Scheduling, st: State, id: string, o: Oracle)
    requires Good(cfg) && Inv(cfg, st) && Known(cfg, id) && id != "" && At(cfg, id).mode == Coding
    ensures var r := EnsureCoding(cfg, st, id, o);
      && (r.1 == Refused <==> !Runs(st, id) && BackingOff(st, id))
      && (r.1 == Waiting <==> !Runs(st, id) && !BackingOff(st, id) && st.flight != Idle)
      && r.1 != Never && (r.1.Granted? ==> id in r.0.procs && r.1.ch == r.0.procs[id].ch)
      && (r.1 == Refused || Runs(st, id) ==> r.0 == st)
      && (r.1 == Waiting ==> Knocked(cfg, st, r.0, id))
      && (r.1.Granted? && !Runs(st, id) ==> Switched(cfg, st, r.0, {id}, id, o))
  {
    hide SwitchTo, Core, CodingOK, FlightOK, Switched;
    if !Runs(st, id) && !BackingOff(st, id) {
      if st.flight == Idle {
        SwitchMakes(cfg, st, [id], Coding, o);
        assert (set x | x in [id]) == {id};
        CodingWaits(cfg, st, id, o);
      } else {
        PreemptCancels(cfg, st, id);
      }
    }
  }

  lemma CodingWaits(cfg: Scheduling, st: State, id: string, o: Oracle)
    requires Inv(cfg, st) && At(cfg, id).mode == Coding
    ensures AfterSwitch(SwitchTo(cfg, st, [id], Coding, o), id).1.Granted?
  {
    CodingGranted(cfg, st, id, o);
  }

  lemma OnDemandReply(cfg: Scheduling, st: State, id: string, o: Oracle)
    requires Good(cfg) && Inv(cfg, st) && Known(cfg, id) && id != "" && At(cfg, id).mode == Background
    requires !Stays(cfg, id) ==> !CodingUp(cfg, st)
    ensures var r := EnsureOnDemand(cfg, st, id, o);
      && (r.1 == Refused <==> !Runs(st, id) && (BackingOff(st, id) || (st.flight == Idle && CardKept(cfg, st, id))))
      && (r.1 == Waiting <==> !Runs(st, id) && !BackingOff(st, id) && st.flight != Idle)
      && r.1 != Never && (r.1.Granted? ==> id in r.0.procs && r.1.ch == r.0.procs[id].ch)
      && (r.1 == Refused || Runs(st, id) ==> r.0 == st)
      && (r.1 == Waiting ==> Knocked(cfg, st, r.0, id))
      && (r.1.Granted? && !Runs(st, id) ==> LaunchedAlone(cfg, st, r.0, id, o))
  {
    hide Acquire, LaunchAlone, LaunchedAlone, CardKept, OneOwner, Lifecycle, LaunchesOK, BackoffOK, FlightOK, CodingOK;
    if !Runs(st, id) && !BackingOff(st, id) {
      if st.flight == Idle {
        AcquiresUnlessKept(cfg, st, id, o);
        if !CardKept(cfg, st, id) {
          AloneMakes(cfg, st, id, o);
          AloneGranted(cfg, Acquire(cfg, st, id, o).value, id, o);
        }
      } else {
        PreemptCancels(cfg, st, id);
      }
    }
  }

  lemma MemberReply(cfg: Scheduling, st: State, id: string, o: Oracle)
    requires Good(cfg) && Inv(cfg, st) && InGroup(cfg, id) && id in st.procs && At(cfg, id).mode == Background
    ensures var r := EnsureMember(cfg, st, id, o);
      && r.1 != Refused && r.1 != Never && (r.1 == Waiting <==> !Runs(st, id) && st.flight != Idle)
      && (r.1.Granted? ==> id in r.0.procs && r.1.ch == r.0.procs[id].ch)
      && (r.1 == Waiting || Runs(st, id) ==> r.0 == st)
      && (r.1.Granted? && !Runs(st, id) ==> Restarted(cfg, st, r.0, id, o))
  {
    hide Restart, Restarted, OneOwner, Lifecycle, LaunchesOK, BackoffOK, FlightOK, CodingOK;
    if !Runs(st, id) && st.flight == Idle {
      RestartMakes(cfg, st, id, o);
      RestartChannel(cfg, st, id, o);
    }
  }

  lemma GroupReply(cfg: Scheduling, st: State, id: string, o: Oracle)
    requires Good(cfg) && Inv(cfg, st) && IsGroup(cfg, o.group) && ByGroup(cfg, st, id)
    ensures var r := EnsureGroup(cfg, st, id, o);
      var held := st.codingModel != "" && OnLease(cfg, st);
      && r.1 != Refused && (r.1 == Waiting <==> !held && st.flight != Idle)
      && (r.1 == Never <==> held || (st.flight == Idle && Asleep(st, id) && Stays(cfg, id)))
      && (r.1.Granted? ==> id in r.0.procs && r.1.ch == r.0.procs[id].ch)
      && (held || r.1 == Waiting ==> r.0 == st)
      && (!held && st.flight == Idle ==> Switched(cfg, st, r.0, set x | x in o.group, "", o))
  {
    hide SwitchTo, OneOwner, Lifecycle, LaunchesOK, BackoffOK, FlightOK, CodingOK, LeaseActive, OnLease;
    LeaseIs(cfg, st);
    SwitchMakes(cfg, st, o.group, Background, o);
  }

  /** What the reply is, for every model in every state: refused, a channel nobody closes,
      not before the switch under way is over, or the channel of the model's own slot. */
  lemma ReplyExactlyWhen(cfg: Scheduling, st: State, id: string, o: Oracle)
    requires Good(cfg) && Inv(cfg, st) && IsGroup(cfg, o.group)
    ensures var r := Request(cfg, st, id, o);
      && (r.1 == Refused <==>
            !Admits(cfg, st, id) ||
            (!InGroup(cfg, id) && !Runs(st, id) &&
             (BackingOff(st, id) ||
              (st.flight == Idle && At(cfg, id).mode == Background && CardKept(cfg, st, id)))))
      && (r.1 == Never <==>
            Admits(cfg, st, id) && ByGroup(cfg, st, id) &&
            ((st.codingModel != "" && OnLease(cfg, st)) || (st.flight == Idle && Asleep(st, id) && Stays(cfg, id))))
      && (r.1 == Waiting <==>
            Admits(cfg, st, id) && st.flight != Idle &&
            if ByGroup(cfg, st, id) then !(st.codingModel != "" && OnLease(cfg, st))
            else !Runs(st, id) && (InGroup(cfg, id) || !BackingOff(st, id)))
      && (r.1.Granted? ==> id in r.0.procs && r.1.ch == r.0.procs[id].ch)
  {
    hide Request, Guarded, Core, CodingOK, FlightOK, OnLease, CardKept, Admits, Runs, Asleep, BackingOff;
    NotedSame(cfg, st, id);
    RequestIsNoted(cfg, st, id, o);
    if Known(cfg, id) && id != "" && id != PROXY_MODEL_ID {
      NotedInv(cfg, st, id);
      GuardedReply(cfg, Noted(cfg, st, id), id, o);
    } else {
      assert !Admits(cfg, st, id) by { NotAsked(cfg, st, id); }
    }
  }

  lemma NotAsked(cfg: Scheduling, st: State, id: string)
    requires !Known(cfg, id) || id == "" || id == PROXY_MODEL_ID
    ensures !Admits(cfg, st, id)
  {
  }

  lemma NotedInv(cfg: Scheduling, st: State, id: string)
    requires Inv(cfg, st)
    ensures Inv(cfg, Noted(cfg, st, id))
  {
    TouchInv(cfg, st, id, At(cfg, id).mode);
  }

  /** What the state is after a request, in the same cases: after a refusal, and for a model
      that runs and is not served by the group, nothing happened but what the proxy noted;
      who waits may have cancelled the switch; the rest is a switch, a launch beside the
      others or a restart. */
  lemma RequestLeaves(cfg: Scheduling, st: State, id: string, o: Oracle)
    requires Good(cfg) && Inv(cfg, st) && IsGroup(cfg, o.group)
    ensures var r, s1 := Request(cfg, st, id, o), Noted(cfg, st, id);
      && (r.1 == Refused ==> r.0 == s1)
      && (r.1 == Waiting ==> Knocked(cfg, s1, r.0, id))
      && (r.1.Granted? || r.1 == Never ==>
            if ByGroup(cfg, st, id) then
              if st.codingModel != "" && OnLease(cfg, st) then r.0 == s1
              else Switched(cfg, s1, r.0, set x | x in o.group, "", o)
            else if Runs(st, id) then r.0 == s1
            else if At(cfg, id).mode == Coding then Switched(cfg, s1, r.0, {id}, id, o)
            else if InGroup(cfg, id) then Restarted(cfg, s1, r.0, id, o)
            else LaunchedAlone(cfg, s1, r.0, id, o))
  {
    hide Request, Guarded, Core, CodingOK, FlightOK, OnLease, CardKept, Admits, Runs, Asleep, BackingOff;
    hide Switched, Restarted, LaunchedAlone, Knocked, SchedulingAccepted;
    NotedSame(cfg, st, id);
    RequestIsNoted(cfg, st, id, o);
    if Known(cfg, id) && id != "" && id != PROXY_MODEL_ID {
      NotedInv(cfg, st, id);
      GuardedReply(cfg, Noted(cfg, st, id), id, o);
    }
  }

  lemma GuardedReply(cfg: Scheduling, st: State, id: string, o: Oracle)
    requires Good(cfg) && Inv(cfg, st) && IsGroup(cfg, o.group) && Known(cfg, id) && id != "" && id != PROXY_MODEL_ID
    ensures var r := Guarded(cfg, st, id, o);
      && (r.1 == Refused <==>
            !Admits(cfg, st, id) ||
            (!InGroup(cfg, id) && !Runs(st, id) &&
             (BackingOff(st, id) ||
              (st.flight == Idle && At(cfg, id).mode == Background && CardKept(cfg, st, id)))))
      && (r.1 == Never <==>
            Admits(cfg, st, id) && ByGroup(cfg, st, id) &&
            ((st.codingModel != "" && OnLease(cfg, st)) || (st.flight == Idle && Asleep(st, id) && Stays(cfg, id))))
      && (r.1 == Waiting <==>
            Admits(cfg, st, id) && st.flight != Idle &&
            if ByGroup(cfg, st, id) then !(st.codingModel != "" && OnLease(cfg, st))
            else !Runs(st, id) && (InGroup(cfg, id) || !BackingOff(st, id)))
      && (r.1.Granted? ==> id in r.0.procs && r.1.ch == r.0.procs[id].ch)
      && (r.1 == Refused ==> r.0 == st)
      && (r.1 == Waiting ==> Knocked(cfg, st, r.0, id))
      && (r.1.Granted? || r.1 == Never ==>
            if ByGroup(cfg, st, id) then
              if st.codingModel != "" && OnLease(cfg, st) then r.0 == st
              else Switched(cfg, st, r.0, set x | x in o.group, "", o)
            else if Runs(st, id) then r.0 == st
            else if At(cfg, id).mode == Coding then Switched(cfg, st, r.0, {id}, id, o)
            else if InGroup(cfg, id) then Restarted(cfg, st, r.0, id, o)
            else LaunchedAlone(cfg, st, r.0, id, o))
  {
    hide Core, CodingOK, FlightOK, OnLease, CardKept, Runs, Asleep, BackingOff, CodingRunning, CodingUp;
    hide Switched, Restarted, LaunchedAlone, SchedulingAccepted;
    hide EnsureCoding, EnsureOnDemand, EnsureMember, EnsureGroup;
    KnownMode(cfg, id);
    CodingUpIs(cfg, st);
    if Admits(cfg, st, id) {
      if At(cfg, id).mode == Coding {
        CodingReply(cfg, st, id, o);
      } else if !InGroup(cfg, id) {
        OnDemandReply(cfg, st, id, o);
      } else if ByGroup(cfg, st, id) {
        GroupReply(cfg, st, id, o);
      } else {
        MemberReply(cfg, st, id, o);
      }
    }
  }
}
