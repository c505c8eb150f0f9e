/** What the scheduler does of its own accord: the probe loop, the end of a switch, the
    reaping of commands, and the ways back to the startup set. */
module Probes {
  import opened Text
  import opened Config
  import opened Backoff
  import opened Machine
  import opened Invariants
  import opened Steps
  import opened Moves
  import opened Safety
  import opened Continuity
  import opened Theorems
  import opened Requests
  import opened Outcomes

  /** The port lookup finds the server behind id's slot. */
  predicate Answers(cfg: Scheduling, st: State, id: string, o: Oracle) {
    id in st.procs && At(cfg, id).port > 0 && st.procs[id].Proc() in st.live && st.procs[id].Proc() in o.listening
  }

  /** No slot but id's differs, and no register, clock or count. */
  ghost predicate OthersSame(st: State, st': State, id: string) {
    && (forall x :: x in st'.procs <==> x in st.procs)
    && (forall x | x in st.procs && x != id :: st'.procs[x] == st.procs[x])
    && (forall x | x != id :: (x in st'.failCount <==> x in st.failCount) && (x in st.failCount ==> st'.failCount[x] == st.failCount[x]))
    && (forall x | x != id ::
          (x in st'.nextRestartAt <==> x in st.nextRestartAt) && (x in st.nextRestartAt ==> st'.nextRestartAt[x] == st.nextRestartAt[x]))
    && st'.expected == st.expected && st'.codingModel == st.codingModel && st'.lastCodingAt == st.lastCodingAt
    && st'.flight == st.flight && st'.preempted == st.preempted && st'.started == st.started
    && st'.inflight == st.inflight && st'.now == st.now && st'.nextProc == st.nextProc && st'.freed == st.freed
  }

  /** id was marked ready: its channel is closed, its failures are forgotten, its idle clock
      runs from now if it never ran, and its server is known if the lookup finds it. */
  ghost predicate MarkedReady(cfg: Scheduling, st: State, st': State, id: string, o: Oracle) {
    && OthersSame(st, st', id) && st'.live == st.live && st'.nextCh == st.nextCh && id in st.procs && id in st'.procs
    && (var sl, sl' := st.procs[id], st'.procs[id];
        && sl'.readyOK && sl'.chClosed && sl'.cmd == sl.cmd && sl'.ch == sl.ch && sl'.sleeping == sl.sleeping
        && sl'.server == (if Answers(cfg, st, id, o) then sl.Proc() else sl.server)
        && sl.ch in st'.closes && (forall ch | ch != sl.ch :: ch in st'.closes <==> ch in st.closes))
    && id !in st'.failCount && id !in st'.nextRestartAt
    && id in st'.lastActiveAt
    && st'.lastActiveAt[id] == (if id in st.lastActiveAt && st.lastActiveAt[id] != 0 then st.lastActiveAt[id] else st.now)
    && (forall x | x != id :: (x in st'.lastActiveAt <==> x in st.lastActiveAt)
          && (x in st.lastActiveAt ==> st'.lastActiveAt[x] == st.lastActiveAt[x]))
  }

  lemma MarkFrame(cfg: Scheduling, st: State, id: string, o: Oracle)
    ensures OthersSame(st, MarkReady(cfg, st, id, o), id)
  {
    hide Listens;
  }

  lemma MarkMakes(cfg: Scheduling, st: State, id: string, o: Oracle)
    requires Lifecycle(st) && LaunchesOK(st) && id in st.procs
    ensures if st.procs[id].readyOK then MarkReady(cfg, st, id, o) == st
      else MarkedReady(cfg, st, MarkReady(cfg, st, id, o), id, o)
  {
    hide LaunchesOK, OthersSame;
    MarkFrame(cfg, st, id, o);
    assert SlotOK(st, st.procs[id]);
    LiveNotZero(st);
  }

  /** A ready background model is put to sleep when it has been idle for its timeout. */
  predicate DueToSleep(cfg: Scheduling, st: State, id: string) {
    && Runs(st, id) && st.procs[id].readyOK && !st.procs[id].sleeping
    && At(cfg, id).mode == Background && At(cfg, id).sleepTimeout > 0
    && (id in st.inflight ==> st.inflight[id] == 0)
    && id in st.lastActiveAt && st.lastActiveAt[id] != 0 && st.now - st.lastActiveAt[id] > At(cfg, id).sleepTimeout
  }

  /** The probe loop looks at a slot that is awake and not ready. */
  predicate Probed(cfg: Scheduling, st: State, id: string) {
    id in st.procs && !st.procs[id].sleeping && !st.procs[id].readyOK && At(cfg, id).readinessURL != ""
  }

  /** Its command is gone, and no server answers. */
  predicate Vanished(cfg: Scheduling, st: State, id: string, o: Oracle) {
    id in st.procs && st.procs[id].cmd == 0 && !Answers(cfg, st, id, o)
  }

  lemma GoneIs(cfg: Scheduling, st: State, id: string, o: Oracle)
    requires LaunchesOK(st) && id in st.procs
    ensures Gone(cfg, st, id, o) <==> Vanished(cfg, st, id, o)
  {
    LiveNotZero(st);
  }

  /** id, and nobody else, was put to sleep. */
  ghost predicate SleptAlone(st: State, st': State, id: string) {
    && OthersSame(st, st', id) && PutToSleep(st, st', id) && st'.closes == st.closes && st'.lastActiveAt == st.lastActiveAt
    && st'.live == st.live - {st.procs[id].Proc()}
  }

  lemma SleepMakes(st: State, id: string)
    requires LaunchesOK(st) && id in st.procs
    ensures SleptAlone(st, Suspend(st, id), id)
  {
  }

  /** One look of the probe loop at a model: asleep if it is due to sleep; ready, and its
      waiters released, if it is probed and answers; its vanished server forgotten, and a
      background model restarted if that is due; and otherwise nothing. */
  lemma VisitExactlyWhen(cfg: Scheduling, st: State, id: string, o: Oracle)
    requires Good(cfg) && Inv(cfg, st)
    ensures var st' := Apply(cfg, st, Visited(id, o));
      if DueToSleep(cfg, st, id) then SleptAlone(st, st', id)
      else if !Probed(cfg, st, id) then st' == st
      else if !Vanished(cfg, st, id, o) then if id in o.probes then MarkedReady(cfg, st, st', id, o) else st' == st
      else
        var s1 := st.(procs := st.procs[id := st.procs[id].(server := 0)]);
        if At(cfg, id).mode == Background then Restarted(cfg, s1, st', id, o) else st' == s1
  {
    hide Restart, Restarted, MarkReady, MarkedReady, Gone, Vanished, OneOwner, Lifecycle, BackoffOK, CodingOK, FlightOK, Good;
    hide Suspend, SleptAlone, LaunchesOK;
    if id in st.procs {
      SlotFacts(cfg, st, id);
      CoreLaunches(cfg, st);
      SleepMakes(st, id);
      GoneIs(cfg, st, id, o);
      MarkMakes(cfg, st, id, o);
      if Probed(cfg, st, id) && Vanished(cfg, st, id, o) {
        VanishedInv(cfg, st, id, o);
        RestartMakes(cfg, Forgotten(st, id), id, o);
      }
    }
  }

  lemma SlotFacts(cfg: Scheduling, st: State, id: string)
    requires Core(cfg, st) && id in st.procs
    ensures SlotOK(st, st.procs[id])
  {
  }

  lemma VanishedInv(cfg: Scheduling, st: State, id: string, o: Oracle)
    requires Inv(cfg, st) && Vanished(cfg, st, id, o)
    ensures Inv(cfg, Forgotten(st, id))
  {
    ForgottenInv(cfg, st, id);
  }

  /** A successful probe is what makes a model ready and releases its waiters: a visit of a
      model that is awake and not ready, has a readiness address and a command or a server,
      ends with it ready and its channel closed if and only if it answered. */
  lemma ProbeReleasesExactlyWhen(cfg: Scheduling, st: State, id: string, o: Oracle)
    requires Good(cfg) && Inv(cfg, st) && Probed(cfg, st, id) && !Vanished(cfg, st, id, o)
    ensures var st' := Apply(cfg, st, Visited(id, o));
      && id in st'.procs && (st'.procs[id].readyOK <==> id in o.probes)
      && (st.procs[id].ch in st'.closes <==> id in o.probes || st.procs[id].ch in st.closes)
  {
    hide Apply, Good, Inv, Vanished, OthersSame;
    VisitExactlyWhen(cfg, st, id, o);
  }

  /** The end of one wait within a switch marks that target, if it was not ready. */
  lemma ReadyMarks(cfg: Scheduling, st: State, id: string, o: Oracle)
    requires Inv(cfg, st) && Enabled(cfg, st, Ready(id, o))
    ensures var st' := Apply(cfg, st, Ready(id, o));
      && id in st.procs && if st.procs[id].readyOK then st' == st else MarkedReady(cfg, st, st', id, o)
  {
    hide MarkReady, MarkedReady, Lifecycle, LaunchesOK;
    CoreLaunches(cfg, st);
    MarkMakes(cfg, st, id, o);
  }

  /** The end of a switch makes ready exactly the targets that answered, releases exactly
      those that wait for them, and lets the next caller in. */
  lemma FinishMarksExactly(cfg: Scheduling, st: State, oks: seq<string>, o: Oracle)
    requires Inv(cfg, st) && Enabled(cfg, st, Finish(oks, o))
    ensures var st' := Apply(cfg, st, Finish(oks, o));
      && st'.flight == Idle && st'.codingModel == st.codingModel && st'.preempted == st.preempted
      && (forall x | x in st.procs :: x in st'.procs
            && (st'.procs[x].readyOK <==> st.procs[x].readyOK || x in oks)
            && st'.procs[x].ch == st.procs[x].ch && st'.procs[x].cmd == st.procs[x].cmd)
      && (forall ch :: ch in st'.closes <==> ch in st.closes || exists x :: x in oks && st.procs[x].ch == ch)
  {
    hide MarkAll, Core, CodingOK;
    MarkAllMakes(cfg, st, oks, o);
  }

  lemma {:induction false} MarkAllMakes(cfg: Scheduling, st: State, oks: seq<string>, o: Oracle)
    requires Inv(cfg, st) && st.flight.Switching? && forall x :: x in oks ==> x in st.flight.wait
    ensures var st' := MarkAll(cfg, st, oks, o);
      && st'.codingModel == st.codingModel && st'.preempted == st.preempted
      && (forall x | x in st.procs :: x in st'.procs
            && (st'.procs[x].readyOK <==> st.procs[x].readyOK || x in oks)
            && st'.procs[x].ch == st.procs[x].ch && st'.procs[x].cmd == st.procs[x].cmd)
      && (forall ch :: ch in st'.closes <==> ch in st.closes || exists x :: x in oks && st.procs[x].ch == ch)
    decreases |oks|
  {
    hide MarkReady, Core, CodingOK, MarkedReady;
    if oks != [] {
      var s1, k := MarkReady(cfg, st, oks[0], o), oks[0];
      assert k in oks && k in st.procs;
      CoreLaunches(cfg, st);
      MarkSummary(cfg, st, k, o);
      MarkReadyInv(cfg, st, k, o);
      MarkAllMakes(cfg, s1, oks[1..], o);
      assert oks == [k] + oks[1..];
      var st' := MarkAll(cfg, s1, oks[1..], o);
      forall ch ensures ch in st'.closes <==> ch in st.closes || exists x :: x in oks && st.procs[x].ch == ch {
        if x :| x in oks && st.procs[x].ch == ch {
          assert x == k || x in oks[1..];
        }
      }
    }
  }

  lemma MarkSummary(cfg: Scheduling, st: State, k: string, o: Oracle)
    requires Inv(cfg, st) && k in st.procs
    ensures var s1 := MarkReady(cfg, st, k, o);
      && s1.codingModel == st.codingModel && s1.preempted == st.preempted
      && (forall x | x in st.procs :: x in s1.procs
            && (s1.procs[x].readyOK <==> st.procs[x].readyOK || x == k)
            && s1.procs[x].ch == st.procs[x].ch && s1.procs[x].cmd == st.procs[x].cmd)
      && (forall ch :: ch in s1.closes <==> ch in st.closes || st.procs[k].ch == ch)
  {
    hide MarkReady, OneOwner, KeysOK, LaunchesOK, BackoffOK, CodingOK, FlightOK, Answers;
    CoreLaunches(cfg, st);
    MarkMakes(cfg, st, k, o);
    assert SlotOK(st, st.procs[k]);
  }

  // The reaper.

  lemma BackoffFacts(cfg: Scheduling, st: State)
    requires Inv(cfg, st)
    ensures BackoffOK(st)
  {
  }

  lemma FailMakes(st: State, id: string)
    requires BackoffOK(st)
    ensures var st' := RecordFail(st, id);
      && OthersSame(st, st', id) && SameSlots(st, st') && st'.lastActiveAt == st.lastActiveAt
      && (var n := (if id in st.failCount then st.failCount[id] else 0) + 1;
          && id in st'.failCount && st'.failCount[id] == n
          && if n >= 2 then id in st'.nextRestartAt && st'.nextRestartAt[id] == st.now + Delay(FAIL_BACKOFF, n)
             else id !in st'.nextRestartAt)
  {
    hide Delay;
  }

  /** What the end of command proc does: nothing if id's slot no longer holds it; if its
      server answers, the slot keeps that; otherwise the slot is down and unready, and one
      more failure is counted, which from the second on opens a window. */
  lemma ReapExactlyWhen(cfg: Scheduling, st: State, id: string, proc: nat, o: Oracle)
    requires Inv(cfg, st)
    ensures var st' := Apply(cfg, st, Reaped(id, proc, o));
      if proc == 0 || id !in st.procs || st.procs[id].cmd != proc then st' == st
      else if Answers(cfg, st, id, o) then st' == st.(procs := st.procs[id := st.procs[id].(cmd := 0, server := proc)])
      else
        && OthersSame(st, st', id) && st'.live == st.live - {proc} && st'.closes == st.closes && st'.nextCh == st.nextCh
        && id in st'.procs && st'.procs[id] == st.procs[id].(cmd := 0, server := 0, readyOK := false)
        && st'.lastActiveAt == st.lastActiveAt
        && (var n := (if id in st.failCount then st.failCount[id] else 0) + 1;
            && id in st'.failCount && st'.failCount[id] == n
            && if n >= 2 then id in st'.nextRestartAt && st'.nextRestartAt[id] == st.now + Delay(FAIL_BACKOFF, n)
               else id !in st'.nextRestartAt)
  {
    hide Core, CodingOK, FlightOK, Delay, RecordFail;
    if proc != 0 && id in st.procs && st.procs[id].cmd == proc {
      SlotFacts(cfg, st, id);
      assert BackoffOK(st) by { BackoffFacts(cfg, st); }
      FailMakes(Stopped(st, id), id);
    }
  }

  // The ways back.

  /** The start of the process, the end of the lease and the death of a coding model before
      it was ready all switch the startup set in. */
  lemma Returns(cfg: Scheduling, st: State, ev: Event)
    requires Good(cfg) && Inv(cfg, st) && Enabled(cfg, st, ev) && (ev.Start? || ev.LeaseTick? || ev.Recovered?) && ev.o.group != []
    ensures var st' := Apply(cfg, st, ev);
      && (st'.started <==> st.started || ev.Start?)
      && Switched(cfg, st, st'.(started := st.started), set x | x in ev.o.group, "", ev.o)
  {
    hide SwitchTo, Core, CodingOK, FlightOK;
    SwitchMakes(cfg, st, ev.o.group, Background, ev.o);
    SwitchKeepsStarted(cfg, st, ev.o.group, ev.o);
  }

  lemma SwitchKeepsStarted(cfg: Scheduling, st: State, ids: seq<string>, o: Oracle)
    requires Good(cfg) && Inv(cfg, st) && ids != [] && IsGroup(cfg, ids)
    ensures var st' := SwitchTo(cfg, st, ids, Background, o); st'.(started := st.started) == st'
  {
    hide SwitchTo, Core, CodingOK, FlightOK, Registered, Halted, TargetLeft;
    SwitchMakes(cfg, st, ids, Background, o);
  }

  /** The recovery branch comes up for a registered coding model whose command and server
      are gone while its channel is open.  Without a startup set there is nothing to
      switch to: the model is only no longer registered, every slot stays, and neither this
      branch nor that of the lease, which alone would change nothing, comes up again. */
  lemma RecoveryWithoutGroup(cfg: Scheduling, st: State, o: Oracle, d: nat, o': Oracle)
    requires Good(cfg) && Inv(cfg, st) && o.group == [] && IsGroup(cfg, [])
    ensures Enabled(cfg, st, Recovered(o)) <==>
      && st.flight == Idle && st.codingModel != "" && st.procs[st.codingModel].cmd == 0
      && st.procs[st.codingModel].server !in st.live && !st.procs[st.codingModel].chClosed
    ensures Enabled(cfg, st, Recovered(o)) ==>
      var st' := Apply(cfg, st, Recovered(o));
      var later := Exec(cfg, st', [Tick(d)]);
      st' == st.(codingModel := "") && !Enabled(cfg, later, Recovered(o')) && !Enabled(cfg, later, LeaseTick(o'))
    ensures Apply(cfg, st, LeaseTick(o)) == st
  {
    hide IsGroup, Good, Core, FlightOK, DeadNeverReady, LeaseExpired, Exec;
    CoreLaunches(cfg, st);
    DeadIs(cfg, st);
    NothingRegistered(cfg, st.(codingModel := ""), d);
  }

  lemma DeadIs(cfg: Scheduling, st: State)
    requires CodingOK(cfg, st) && LaunchesOK(st)
    ensures DeadNeverReady(st) <==>
      && st.codingModel != "" && st.procs[st.codingModel].cmd == 0
      && st.procs[st.codingModel].server !in st.live && !st.procs[st.codingModel].chClosed
  {
    LiveNotZero(st);
  }

  lemma NothingRegistered(cfg: Scheduling, st: State, d: nat)
    requires st.codingModel == ""
    ensures var later := Exec(cfg, st, [Tick(d)]); !DeadNeverReady(later) && !LeaseExpired(cfg, later)
  {
    assert [Tick(d)][1..] == [];
  }

  // The promise of a channel.

  /** A visit closes a channel exactly when it marks the slot that carries it. */
  lemma VisitCloses(cfg: Scheduling, st: State, id: string, o: Oracle, ch: nat)
    requires Good(cfg) && Inv(cfg, st)
    ensures ch in Apply(cfg, st, Visited(id, o)).closes <==>
      ch in st.closes || (Probed(cfg, st, id) && !Vanished(cfg, st, id, o) && id in o.probes && st.procs[id].ch == ch)
  {
    hide Apply, Good, Inv, Vanished, OthersSame, PutToSleep, CardKept;
    VisitExactlyWhen(cfg, st, id, o);
  }

  /** Who was handed the channel of a model that was down is released by a later look of the
      probe loop, however long a run lies between, if and only if the channel was closed
      before or the model's slot still carries it, is awake and not ready, and answers. */
  lemma PromiseKeptExactlyWhen(cfg: Scheduling, evs: seq<Event>, id: string, o: Oracle, more: seq<Event>, o': Oracle)
    requires Good(cfg) && Legal(cfg, evs) && IsGroup(cfg, o.group)
    requires !Runs(Reached(cfg, evs), id) && !ClosedSlot(Reached(cfg, evs), id)
    requires var r := Request(cfg, Reached(cfg, evs), id, o); r.1.Granted? && IsRun(cfg, r.0, more)
    ensures var r := Request(cfg, Reached(cfg, evs), id, o);
      var st := Exec(cfg, r.0, more);
      && r.1.ch !in r.0.closes
      && (r.1.ch in Apply(cfg, st, Visited(id, o')).closes <==>
            || r.1.ch in st.closes
            || (Probed(cfg, st, id) && !Vanished(cfg, st, id, o') && id in o'.probes && st.procs[id].ch == r.1.ch))
  {
    hide Request, Reached, Legal, Apply, Inv, Exec, IsRun;
    var r := Request(cfg, Reached(cfg, evs), id, o);
    ReachedInv(cfg, evs);
    RequestOpen(cfg, Reached(cfg, evs), id, o);
    RequestInv(cfg, Reached(cfg, evs), id, o);
    RunInv(cfg, r.0, more);
    VisitCloses(cfg, Exec(cfg, r.0, more), id, o', r.1.ch);
  }

  /** A startup member that was down is asked for and restarted.  Over every run in which its
      new process does not end, the next look that finds it answering makes it ready and
      closes the channel the caller was handed. */
  lemma RestartKeepsPromise(
      cfg: Scheduling, evs: seq<Event>, id: string, o: Oracle, more: seq<Event>, o': Oracle, asSpelled: bool)
    requires Good(cfg) && Legal(cfg, evs) && IsGroup(cfg, o.group) && Pinned(cfg, id, asSpelled)
    requires asSpelled ==> Canonical(evs) && Canonical(more)
    requires id in Reached(cfg, evs).procs && !Runs(Reached(cfg, evs), id)
    requires var r := Request(cfg, Reached(cfg, evs), id, o);
      r.1.Granted? && Runs(r.0, id) && IsRun(cfg, r.0, more) && Undisturbed(cfg, r.0, more, id)
    requires var st := Exec(cfg, Request(cfg, Reached(cfg, evs), id, o).0, more);
      !OwnEnd(cfg, st, Visited(id, o'), id) && id in o'.probes
    ensures var r := Request(cfg, Reached(cfg, evs), id, o);
      var st' := Apply(cfg, Exec(cfg, r.0, more), Visited(id, o'));
      r.1.ch in st'.closes && id in st'.procs && st'.procs[id].readyOK && st'.procs[id].ch == r.1.ch
  {
    hide Request, Reached, Legal, Apply, Exec, IsRun, Undisturbed, Safe, Enabled, OwnEnd, Pinned, Canonical;
    var st0 := Reached(cfg, evs);
    var r := Request(cfg, st0, id, o);
    AskedSafe(cfg, evs, id, o, asSpelled);
    ReplyExactlyWhen(cfg, st0, id, o);
    KeepsProcess(cfg, r.0, more, id, asSpelled);
    RunSafe(cfg, r.0, more);
    LookEnds(cfg, Exec(cfg, r.0, more), id, o');
  }

  lemma AskedSafe(cfg: Scheduling, evs: seq<Event>, id: string, o: Oracle, asSpelled: bool)
    requires Good(cfg) && Legal(cfg, evs) && IsGroup(cfg, o.group) && (asSpelled ==> Canonical(evs))
    requires id in Reached(cfg, evs).procs
    ensures var st := Request(cfg, Reached(cfg, evs), id, o).0; Safe(cfg, st) && Spelled(cfg, st, asSpelled)
    ensures Inv(cfg, Reached(cfg, evs))
  {
    hide Request, Reached, Legal, Safe, ProperOK;
    var st := Reached(cfg, evs);
    ReachedSafe(cfg, evs);
    ReachedInv(cfg, evs);
    StepSafe(cfg, st, Ask(id, o));
    if asSpelled {
      ReachedProper(cfg, evs);
      SlotSpelled(cfg, st, id);
      StepSpelled(cfg, st, Ask(id, o), asSpelled);
    }
  }

  lemma SlotSpelled(cfg: Scheduling, st: State, id: string)
    requires Good(cfg) && ProperOK(cfg, st) && id in st.procs
    ensures TrimSpace(id) == id
  {
  }

  lemma LookEnds(cfg: Scheduling, st: State, id: string, o: Oracle)
    requires Good(cfg) && Safe(cfg, st) && Runs(st, id) && !OwnEnd(cfg, st, Visited(id, o), id) && id in o.probes
    ensures var st' := Apply(cfg, st, Visited(id, o));
      id in st'.procs && st'.procs[id].readyOK && st'.procs[id].ch == st.procs[id].ch && st.procs[id].ch in st'.closes
  {
    hide Apply, OthersSame, Restarted, SleptAlone, FreedOK, WindowOK, ClocksOK, CodingOK, FlightOK, Gone;
    SlotFacts(cfg, st, id);
    CoreLaunches(cfg, st);
    GoneIs(cfg, st, id, o);
    RunningHasURL(cfg, st, id);
    VisitExactlyWhen(cfg, st, id, o);
  }

  lemma RunningHasURL(cfg: Scheduling, st: State, id: string)
    requires Good(cfg) && Inv(cfg, st) && CommandsOK(cfg, st) && Runs(st, id)
    ensures At(cfg, id).readinessURL != ""
  {
    KnownMode(cfg, id);
  }
}
