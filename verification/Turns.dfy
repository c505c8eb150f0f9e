/** What a caller that waited for switchMu does once it has its turn, in the fields of the
    state it finds then. */
module Turns {
  import opened Text
  import opened Config
  import opened Machine
  import opened Invariants
  import opened Steps
  import opened Worlds
  import opened Outcomes
  import opened Probes

  /** The member may still be put to sleep. */
  predicate StillIdle(st: State, id: string) {
    Runs(st, id) && st.procs[id].readyOK && !st.procs[id].sleeping && (id in st.inflight ==> st.inflight[id] == 0)
  }

  /** Who waited for a model that runs by now finds it and does nothing: however many
      requests for a model wait, one launch serves them all.  Who waited to switch the
      startup set in asks that no coding model is registered either.  Otherwise the caller
      switches, launches, restarts or puts to sleep as if it had just come. */
  lemma TurnLeaves(cfg: Scheduling, st: State, t: Ticket, o: Oracle)
    requires Good(cfg) && Inv(cfg, st) && st.flight == Idle && TicketOK(cfg, t) && IsGroup(cfg, o.group)
    ensures var st' := Serving(cfg, st, t, o);
      match t.path
      case ToCoding => if Runs(st, t.id) then st' == st else Switched(cfg, st, st', {t.id}, t.id, o)
      case ToOnDemand =>
        if Runs(st, t.id) || CardKept(cfg, st, t.id) then st' == st else LaunchedAlone(cfg, st, st', t.id, o)
      case ToGroup =>
        if st.codingModel == "" && Runs(st, t.id) then st' == st else Switched(cfg, st, st', set x | x in o.group, "", o)
      case ToRestart => Restarted(cfg, st, st', t.id, o)
      case ToNap => if StillIdle(st, t.id) then SleptAlone(st, st', t.id) else st' == st
  {
    hide Restart, SwitchTo, Acquire, LaunchAlone, Suspend, Core, CodingOK, FlightOK;
    hide Switched, LaunchedAlone, Restarted, SleptAlone, CardKept;
    assert Core(cfg, st);
    match t.path
    case ToCoding =>
      SwitchMakes(cfg, st, [t.id], Coding, o);
      assert (set x | x in [t.id]) == {t.id};
    case ToOnDemand =>
      AcquiresUnlessKept(cfg, st, t.id, o);
      if !CardKept(cfg, st, t.id) {
        AloneMakes(cfg, st, t.id, o);
      }
    case ToGroup => SwitchMakes(cfg, st, o.group, Background, o);
    case ToRestart => RestartMakes(cfg, st, t.id, o);
    case ToNap =>
      CoreLaunches(cfg, st);
      if StillIdle(st, t.id) {
        SleepMakes(st, t.id);
      }
  }

  /** Two requests wait for a coding model that is down.  The first one's turn starts it;
      the second finds it running and changes nothing. */
  lemma SecondFindsIt(cfg: Scheduling, st: State, id: string, o: Oracle, o': Oracle)
    requires Good(cfg) && Inv(cfg, st) && st.flight == Idle && TicketOK(cfg, Ticket(id, ToCoding)) && !Runs(st, id)
    requires Comes(cfg, id, o) && IsGroup(cfg, o.group) && IsGroup(cfg, o'.group)
    ensures var st1 := Serving(cfg, st, Ticket(id, ToCoding), o);
      Runs(st1, id) && Serving(cfg, st1.(flight := Idle), Ticket(id, ToCoding), o') == st1.(flight := Idle)
  {
    hide SwitchTo, Core, FlightOK, Registered, Halted;
    TurnLeaves(cfg, st, Ticket(id, ToCoding), o);
    assert TargetLeft(cfg, OnlyStayers(cfg, st), Serving(cfg, st, Ticket(id, ToCoding), o), id, o);
    assert st.nextProc > 0 by { CoreLaunches(cfg, st); }
  }
}
