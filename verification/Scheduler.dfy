/** The scheduler as a mutable object: slots and channels on the heap, changed in place.
    st is the value the object stands for; every method is tied to the state machine step
    of the same operation, so what holds of every run of the machine holds of the object. */
module Scheduler {
  import opened Text
  import opened Config
  import opened Backoff
  import opened Machine
  import opened Invariants
  import opened Requests
  import opened Steps
  import opened Theorems

  /** What marking a slot ready does beside the slot itself. */
  lemma MarkReadyTables(cfg: Scheduling, st: State, id: string, o: Oracle)
    requires id in st.procs && !st.procs[id].readyOK
    ensures var st' := MarkReady(cfg, st, id, o);
      st' == st.(procs := st'.procs, closes := st'.closes,
                 failCount := st.failCount - {id}, nextRestartAt := st.nextRestartAt - {id},
                 lastActiveAt := if id in st.lastActiveAt && st.lastActiveAt[id] != 0 then st.lastActiveAt
                                 else st.lastActiveAt[id := st.now])
  {
  }

  /** A channel that is only ever closed; closing it twice would panic. */
  class Channel {
    ghost const id: nat
    /** The model whose slot it belongs to. */
    ghost const owner: string
    var closed: bool

    constructor (ghost id: nat, ghost owner: string)
      ensures this.id == id && this.owner == owner && !closed
    {
      this.id, this.owner := id, owner;
      closed := false;
    }

    method Close()
      requires !closed
      modifies this
      ensures closed
    {
      closed := true;
    }
  }

  class ProcSlot {
    /** The model whose slot this is. */
    ghost const owner: string
    var cmd: nat
    var serverPID: nat
    var readyOK: bool
    var readyCh: Channel
    var readyChClosed: bool
    var sleeping: bool

    constructor (cmd: nat, ch: Channel)
      requires !ch.closed
      ensures readyCh == ch && Stands(ch.owner, Slot(cmd, 0, false, ch.id, false, false))
    {
      owner := ch.owner;
      this.cmd, serverPID, readyOK, readyCh, readyChClosed, sleeping := cmd, 0, false, ch, false, false;
    }

    /** The slot and its channel are those of model id and stand for sl: in particular the
        flag mirrors the channel. */
    ghost predicate Stands(id: string, sl: Slot)
      reads this, readyCh
    {
      && owner == readyCh.owner == id
      && cmd == sl.cmd && serverPID == sl.server && readyOK == sl.readyOK && readyCh.id == sl.ch
      && readyChClosed == sl.chClosed == readyCh.closed && sleeping == sl.sleeping
    }

    function Proc(): nat
      reads this
    {
      if cmd != 0 then cmd else serverPID
    }

    /** Ready at last: the channel is closed unless it was already. */
    method SetReady(server: nat, ghost sl: Slot)
      requires Stands(owner, sl)
      modifies this, readyCh
      ensures readyCh == old(readyCh) && Stands(owner, sl.(readyOK := true, server := server, chClosed := true))
    {
      readyOK := true;
      serverPID := server;
      if !readyChClosed {
        readyChClosed := true;
        readyCh.Close();
      }
    }

    /** Stopped on purpose: no process, and a fresh channel. */
    method Renew(ch: Channel, ghost sl: Slot)
      requires Stands(owner, sl) && !ch.closed && ch.owner == owner
      modifies this
      ensures readyCh == ch && Stands(owner, sl.(cmd := 0, server := 0, ch := ch.id, chClosed := false))
    {
      cmd := 0;
      serverPID := 0;
      readyCh := ch;
      readyChClosed := false;
    }

    method SetProcess(cmd: nat, server: nat, readyOK: bool, sleeping: bool, ghost sl: Slot)
      requires Stands(owner, sl)
      modifies this
      ensures readyCh == old(readyCh)
      ensures Stands(owner, sl.(cmd := cmd, server := server, readyOK := readyOK, sleeping := sleeping))
    {
      this.cmd, serverPID, this.readyOK, this.sleeping := cmd, server, readyOK, sleeping;
    }
  }

  /** What a request gets: a channel to wait on, one nobody will close, a refusal, or the
      news that another caller holds the switch. */
  datatype Promise = On(ch: Channel) | Nothing | Refusal | Busy {
    ghost function Value(): Reply {
      match this
      case On(ch) => Granted(ch.id)
      case Nothing => Never
      case Refusal => Refused
      case Busy => Waiting
    }
  }

  /** The oracle o with its choices filled in: the owner met, the order of the startup set. */
  ghost predicate Resolved(o: Oracle, o': Oracle) {
    o' == o.(pick := o'.pick, group := o'.group)
  }

  class Scheduler {
    const cfg: Scheduling
    var procs: map<string, ProcSlot>
    var expected: set<string>
    var codingModel: string
    var lastCodingAt: nat
    var started: bool
    var flight: Flight
    var preempted: bool
    var failCount: map<string, nat>
    var nextRestartAt: map<string, nat>
    var lastActiveAt: map<string, nat>
    var inflight: map<string, nat>
    // The clock and the operating system.
    var now: nat
    var live: set<nat>
    var nextProc: nat
    /** What the object stands for. */
    ghost var st: State
    /** The slots as values, and the slots and channels ever made. */
    ghost var slots: map<string, Slot>
    ghost var repr: set<object>

    constructor (c: Scheduling)
      ensures cfg == c && Valid() && st == INIT && repr == {}
    {
      cfg := c;
      procs, expected, codingModel, lastCodingAt, started := map[], {}, "", 0, false;
      flight, preempted := Idle, false;
      failCount, nextRestartAt, lastActiveAt, inflight := map[], map[], map[], map[];
      now, live, nextProc := 1, {}, 1;
      st, slots, repr := INIT, map[], {};
    }

    ghost predicate Valid()
      reads this, repr
    {
      this !in repr && procs.Keys == st.procs.Keys && Registers() && slots == st.procs && Heap()
    }

    /** The fields that hold plain values agree with st. */
    ghost predicate Registers()
      reads this`st, this`expected, this`codingModel, this`lastCodingAt, this`started, this`flight, this`preempted
      reads this`failCount, this`nextRestartAt, this`lastActiveAt, this`inflight, this`now, this`live, this`nextProc
    {
      && expected == st.expected && codingModel == st.codingModel && lastCodingAt == st.lastCodingAt
      && started == st.started && flight == st.flight && preempted == st.preempted
      && failCount == st.failCount && nextRestartAt == st.nextRestartAt
      && lastActiveAt == st.lastActiveAt && inflight == st.inflight
      && now == st.now && live == st.live && nextProc == st.nextProc
    }

    /** The slots on the heap match their values; each slot and channel knows its model,
        so no two models share one. */
    ghost predicate Heap()
      reads this`procs, this`slots, this`repr, repr
    {
      && procs.Keys == slots.Keys
      && forall id | id in procs ::
        procs[id] in repr && procs[id].readyCh in repr && procs[id].Stands(id, slots[id])
    }

    // Slots.

    method ReadySlot(id: string, server: nat)
      requires this !in repr && Heap() && id in procs
      modifies this`slots, repr
      ensures Heap() && slots == old(slots)[id := old(slots)[id].(readyOK := true, server := server, chClosed := true)]
    {
      procs[id].SetReady(server, slots[id]);
      slots := slots[id := slots[id].(readyOK := true, server := server, chClosed := true)];
      forall x | x in procs && x != id ensures procs[x] in repr && procs[x].readyCh in repr && procs[x].Stands(x, slots[x]) {
        assert old(procs[x].Stands(x, slots[x]));
      }
    }

    method RenewSlot(id: string, ghost ch: nat)
      requires this !in repr && Heap() && id in procs
      modifies this`slots, this`repr, repr
      ensures Heap() && old(repr) <= repr && fresh(repr - old(repr))
      ensures slots == old(slots)[id := old(slots)[id].(cmd := 0, server := 0, ch := ch, chClosed := false)]
    {
      var channel := new Channel(ch, id);
      procs[id].Renew(channel, slots[id]);
      repr := repr + {channel};
      slots := slots[id := slots[id].(cmd := 0, server := 0, ch := ch, chClosed := false)];
      forall x | x in procs && x != id ensures procs[x] in repr && procs[x].readyCh in repr && procs[x].Stands(x, slots[x]) {
        assert old(procs[x].Stands(x, slots[x]));
      }
    }

    method SetProcess(id: string, cmd: nat, server: nat, readyOK: bool, sleeping: bool)
      requires this !in repr && Heap() && id in procs
      modifies this`slots, repr
      ensures Heap()
      ensures slots == old(slots)[id := old(slots)[id].(cmd := cmd, server := server, readyOK := readyOK, sleeping := sleeping)]
    {
      procs[id].SetProcess(cmd, server, readyOK, sleeping, slots[id]);
      slots := slots[id := slots[id].(cmd := cmd, server := server, readyOK := readyOK, sleeping := sleeping)];
      forall x | x in procs && x != id ensures procs[x] in repr && procs[x].readyCh in repr && procs[x].Stands(x, slots[x]) {
        assert old(procs[x].Stands(x, slots[x]));
      }
    }

    method NewSlot(id: string, cmd: nat, ghost ch: nat)
      requires this !in repr && Heap()
      modifies this`procs, this`slots, this`repr
      ensures Heap() && old(repr) <= repr && fresh(repr - old(repr))
      ensures slots == old(slots)[id := Slot(cmd, 0, false, ch, false, false)]
    {
      var channel := new Channel(ch, id);
      var slot := new ProcSlot(cmd, channel);
      procs := procs[id := slot];
      repr := repr + {slot, channel};
      slots := slots[id := Slot(cmd, 0, false, ch, false, false)];
    }

    // Bookkeeping: the plain fields follow st through each step.

    method BookReady(id: string, ghost o: Oracle)
      requires Registers() && id in st.procs && !st.procs[id].readyOK
      modifies this`failCount, this`nextRestartAt, this`lastActiveAt, this`st
      ensures Registers() && st == MarkReady(cfg, old(st), id, o)
    {
      hide MarkReady;
      ghost var next := MarkReady(cfg, st, id, o);
      MarkReadyTables(cfg, st, id, o);
      failCount := failCount - {id};
      nextRestartAt := nextRestartAt - {id};
      if id !in lastActiveAt || lastActiveAt[id] == 0 {
        lastActiveAt := lastActiveAt[id := now];
      }
      st := next;
    }

    method BookStow(id: string, proc: nat)
      requires Registers() && id in st.procs && proc == st.procs[id].Proc()
      modifies this`live, this`failCount, this`nextRestartAt, this`st
      ensures Registers() && st == Stow(old(st), id)
    {
      live := live - {proc};
      failCount := failCount - {id};
      nextRestartAt := nextRestartAt - {id};
      st := Stow(st, id);
    }

    /** recordStartupFailLocked. */
    method BookFail(id: string)
      requires Registers()
      modifies this`failCount, this`nextRestartAt, this`st
      ensures Registers() && st == RecordFail(old(st), id)
    {
      var n := (if id in failCount then failCount[id] else 0) + 1;
      failCount := failCount[id := n];
      if n > 1 {
        ghost var peak;
        var backoff;
        backoff, peak := ComputeDelay(FAIL_BACKOFF, n);
        nextRestartAt := nextRestartAt[id := now + backoff];
      }
      st := RecordFail(st, id);
    }

    /** A step that changes a slot and no plain field. */
    ghost method BookSlot(id: string, next: State)
      requires Registers() && next == st.(procs := next.procs)
      modifies this`st
      ensures Registers() && st == next
    {
      st := next;
    }

    method BookStop(id: string, cmd: nat)
      requires Registers() && id in st.procs && cmd == st.procs[id].cmd
      modifies this`live, this`st
      ensures Registers() && st == Stopped(old(st), id)
    {
      live := live - {cmd};
      st := Stopped(st, id);
    }

    method BookFree(id: string, victims: set<string>, procIDs: set<nat>, ghost o: Oracle)
      requires Registers() && victims == PortVictims(cfg, st, id, o)
      requires procIDs == set v | v in victims :: st.procs[v].Proc()
      modifies this`live, this`st
      ensures Registers() && st == FreePort(cfg, old(st), id, o)
    {
      live := live - procIDs;
      st := FreePort(cfg, st, id, o);
    }

    method BookPlace(id: string, start: bool)
      requires Registers()
      modifies this`expected, this`live, this`nextProc, this`st
      ensures Registers() && st == Place(old(st), id, start)
    {
      expected := expected + {id};
      if start {
        live := live + {nextProc};
        nextProc := nextProc + 1;
      }
      st := Place(st, id, start);
    }

    method BookStopAll(kept: set<string>, stopped: set<nat>)
      requires Registers() && kept == set id | id in st.procs && Survives(cfg, id)
      requires stopped == set id | id in st.procs && !Survives(cfg, id) :: st.procs[id].Proc()
      modifies this`expected, this`codingModel, this`live, this`st
      ensures Registers() && st == StopAll(cfg, old(st))
    {
      expected := kept;
      codingModel := "";
      live := live - stopped;
      st := StopAll(cfg, st);
      assert st.procs.Keys == kept;
    }

    method BookRerun(id: string)
      requires Registers() && id in st.procs
      modifies this`live, this`nextProc, this`st
      ensures Registers() && st == Rerun(old(st), id)
    {
      live := live + {nextProc};
      nextProc := nextProc + 1;
      st := Rerun(st, id);
    }

    method BookExpected(id: string)
      requires Registers()
      modifies this`expected, this`st
      ensures Registers() && st == old(st).(expected := old(st).expected + {id})
    {
      expected := expected + {id};
      st := st.(expected := st.expected + {id});
    }

    method BookSwitch(ids: seq<string>, mode: Mode, awaited: set<string>)
      requires Registers() && ids != []
      requires awaited == set id | id in ids && !(id in st.procs && st.procs[id].sleeping)
      modifies this`expected, this`codingModel, this`lastCodingAt, this`flight, this`st
      ensures Registers() && st == Register(old(st), ids, mode)
    {
      var all := set id | id in ids;
      expected := expected + all;
      codingModel := "";
      if mode == Coding {
        codingModel := ids[0];
        lastCodingAt := now;
      }
      flight := Switching(if mode == Coding then ids[0] else "group", mode, all, awaited, false);
      st := Register(st, ids, mode);
    }

    method BookAlone(id: string)
      requires Registers()
      modifies this`flight, this`st
      ensures Registers() && st == AwaitAlone(old(st), id)
    {
      flight := Switching(id, Background, {id}, {id}, false);
      st := AwaitAlone(st, id);
    }

    /** preemptLowerPriority. */
    method PreemptLowerPriority(mode: Mode, target: string)
      requires Registers()
      modifies this`flight, this`preempted, this`st
      ensures Registers() && st == Preempt(old(st), mode, target)
      ensures mode in {Coding, Background} && old(flight).Switching? && old(flight).mode in {Coding, Background} ==>
        var cancels := mode == Coding && (old(flight).mode == Background || (target != "" && target != old(flight).target));
        && flight == old(flight).(cancelled := old(flight).cancelled || cancels)
        && (preempted <==> old(preempted) || cancels)
      ensures old(flight) == Idle ==> flight == Idle && preempted == old(preempted)
    {
      if flight == Idle {
        return;
      }
      var sameButOther := mode == Coding && flight.mode == Coding && target != "" && target != flight.target;
      if Priority(mode) <= Priority(flight.mode) && !sameButOther {
        return;
      }
      preempted := true;
      flight := flight.(cancelled := true);
      st := Preempt(st, mode, target);
    }

    method ClearSwitchInflight()
      requires Registers()
      modifies this`flight, this`st
      ensures Registers() && st == old(st).(flight := Idle)
    {
      flight := Idle;
      st := st.(flight := Idle);
    }

    method ClearCoding()
      requires Registers()
      modifies this`codingModel, this`st
      ensures Registers() && st == old(st).(codingModel := "")
    {
      codingModel := "";
      st := st.(codingModel := "");
    }

    method TouchCoding()
      requires Registers()
      modifies this`lastCodingAt, this`st
      ensures Registers() && st == old(st).(lastCodingAt := old(st).now)
    {
      lastCodingAt := now;
      st := st.(lastCodingAt := st.now);
    }

    method TouchModel(id: string)
      requires Registers()
      modifies this`lastActiveAt, this`st
      ensures Registers() && st == old(st).(lastActiveAt := old(st).lastActiveAt[id := old(st).now])
    {
      lastActiveAt := lastActiveAt[id := now];
      st := st.(lastActiveAt := st.lastActiveAt[id := st.now]);
    }

    method ModelEnter(id: string)
      requires Registers()
      modifies this`inflight, this`st
      ensures Registers() && st == Apply(cfg, old(st), Entered(id))
    {
      inflight := inflight[id := (if id in inflight then inflight[id] else 0) + 1];
      st := Apply(cfg, st, Entered(id));
    }

    method ModelLeave(id: string)
      requires Registers()
      modifies this`inflight, this`st
      ensures Registers() && st == Apply(cfg, old(st), Left(id))
    {
      if id in inflight && inflight[id] > 0 {
        inflight := inflight[id := inflight[id] - 1];
      }
      st := Apply(cfg, st, Left(id));
    }

    // What the environment does.

    method Pass(d: nat)
      requires Registers()
      modifies this`now, this`st
      ensures Registers() && st == Apply(cfg, old(st), Tick(d))
    {
      now := now + d;
      st := Apply(cfg, st, Tick(d));
    }

    method Exit(proc: nat)
      requires Registers()
      modifies this`live, this`st
      ensures Registers() && st == Apply(cfg, old(st), Exited(proc))
    {
      live := live - {proc};
      st := Apply(cfg, st, Exited(proc));
    }

    method BookStarted()
      requires Registers()
      modifies this`started, this`st
      ensures Registers() && st == old(st).(started := true)
    {
      started := true;
      st := st.(started := true);
    }

    // Looking at a slot.

    predicate Resolves(id: string, sl: ProcSlot, o: Oracle)
      reads this`live, sl
    {
      At(cfg, id).port > 0 && sl.Proc() != 0 && sl.Proc() in live && sl.Proc() in o.listening
    }

    predicate IsRunning(sl: ProcSlot)
      reads this`live, sl
    {
      sl.cmd != 0 || (sl.serverPID != 0 && sl.serverPID in live)
    }

    /** The number the next started command will have. */
    method NextProc() returns (p: nat)
      requires Registers()
      ensures p == st.nextProc
    {
      return nextProc;
    }

    method Running(id: string) returns (r: bool)
      requires Valid()
      ensures r <==> Runs(st, id)
    {
      return id in procs && IsRunning(procs[id]);
    }

    method Sleeping(id: string) returns (r: bool)
      requires Valid()
      ensures r <==> id in st.procs && st.procs[id].sleeping
    {
      return id in procs && procs[id].sleeping;
    }

    method IsCommand(id: string, proc: nat) returns (r: bool)
      requires Valid()
      ensures r <==> id in st.procs && proc != 0 && st.procs[id].cmd == proc
      ensures r ==> id in procs
    {
      return id in procs && proc != 0 && procs[id].cmd == proc;
    }

    method Listening(id: string, o: Oracle) returns (r: bool)
      requires Valid() && id in procs
      ensures r <==> Listens(cfg, st, id, st.procs[id], o)
    {
      return Resolves(id, procs[id], o);
    }

    /** The fields of a slot that its processes determine. */
    method Look(id: string) returns (cmd: nat, server: nat, ready: bool, asleep: bool)
      requires Valid() && id in procs
      ensures var sl := st.procs[id];
        cmd == sl.cmd && server == sl.server && ready == sl.readyOK && asleep == sl.sleeping
    {
      var sl := procs[id];
      return sl.cmd, sl.serverPID, sl.readyOK, sl.sleeping;
    }

    // Operations on one slot.

    method MarkSlotReady(id: string, o: Oracle)
      requires Valid()
      modifies this, repr
      ensures Valid() && repr == old(repr)
      ensures st == MarkReady(cfg, old(st), id, o)
    {
      hide Heap, Registers;
      if id !in procs {
        return;
      }
      var cmd, server, ready, asleep := Look(id);
      if ready {
        return;
      }
      var listening := Listening(id, o);
      if listening {
        server := if cmd != 0 then cmd else server;
      }
      ReadySlot(id, server);
      BookReady(id, o);
    }

    /** The first critical section of suspendSlot. */
    method MarkAsleep(id: string)
      requires Valid() && id in procs
      modifies this`slots, this`st, repr
      ensures Valid() && st == Drowse(old(st), id)
    {
      hide Heap, Registers;
      var cmd, server, ready, asleep := Look(id);
      SetProcess(id, cmd, server, false, true);
      BookSlot(id, Drowse(st, id));
    }

    /** The second one, after the kill. */
    method StowSlot(id: string)
      requires Valid() && id in procs
      modifies this, repr
      ensures Valid() && old(repr) <= repr && fresh(repr - old(repr))
      ensures st == Stow(old(st), id)
    {
      hide Heap, Registers;
      var cmd, server, ready, asleep := Look(id);
      RenewSlot(id, st.nextCh);
      BookStow(id, if cmd != 0 then cmd else server);
    }

    /** suspendSlot, when nothing comes between its halves. */
    method SuspendSlot(id: string)
      requires Valid() && id in procs
      modifies this, repr
      ensures Valid() && old(repr) <= repr && fresh(repr - old(repr))
      ensures st == Suspend(old(st), id)
    {
      hide Heap, Registers;
      MarkAsleep(id);
      StowSlot(id);
      HalvesSuspend(old(st), id);
    }

    method AdoptServer(id: string)
      requires Valid() && id in procs
      modifies this`slots, this`st, repr
      ensures Valid() && st == Adopted(old(st), id)
    {
      hide Heap, Registers;
      var cmd, server, ready, asleep := Look(id);
      SetProcess(id, 0, cmd, ready, asleep);
      BookSlot(id, Adopted(st, id));
    }

    method StopSlot(id: string)
      requires Valid() && id in procs
      modifies this`slots, this`st, this`live, repr
      ensures Valid() && st == Stopped(old(st), id)
    {
      hide Heap, Registers;
      var cmd, server, ready, asleep := Look(id);
      SetProcess(id, 0, 0, false, asleep);
      BookStop(id, cmd);
    }

    method ForgetServer(id: string)
      requires Valid() && id in procs
      modifies this`slots, this`st, repr
      ensures Valid() && st == Forgotten(old(st), id)
    {
      hide Heap, Registers;
      var cmd, server, ready, asleep := Look(id);
      SetProcess(id, cmd, 0, ready, asleep);
      BookSlot(id, Forgotten(st, id));
    }

    method RerunSlot(id: string)
      requires Valid() && id in procs
      modifies this`slots, this`st, this`live, this`nextProc, repr
      ensures Valid() && st == Rerun(old(st), id)
    {
      hide Heap, Registers;
      var cmd, server, ready, asleep := Look(id);
      var started := NextProc();
      SetProcess(id, started, server, false, false);
      BookRerun(id);
    }

    /** reap, once the wrapper command proc has exited. */
    method ReapCommand(id: string, proc: nat, o: Oracle)
      requires Valid()
      modifies this, repr
      ensures Valid() && repr == old(repr)
      ensures st == Reap(cfg, old(st), id, proc, o)
    {
      hide Heap, Registers;
      var mine := IsCommand(id, proc);
      if !mine {
        return;
      }
      var listening := Listening(id, o);
      if listening {
        AdoptServer(id);
        return;
      }
      var asleep := Sleeping(id);
      StopSlot(id);
      if asleep {
        return;
      }
      BookFail(id);
    }

    // Ports and cards.

    /** The running slots whose servers hold id's port. */
    method FindVictims(id: string, o: Oracle) returns (victims: set<string>, pids: set<nat>)
      requires Valid()
      ensures victims == PortVictims(cfg, st, id, o)
      ensures pids == set v | v in PortVictims(cfg, st, id, o) :: st.procs[v].Proc()
    {
      victims, pids := {}, {};
      var todo := procs.Keys;
      while todo != {}
        invariant todo <= procs.Keys
        invariant victims == PortVictims(cfg, st, id, o) - todo
        invariant pids == set v | v in PortVictims(cfg, st, id, o) - todo :: st.procs[v].Proc()
        decreases todo
      {
        var v :| v in todo;
        var sl := procs[v];
        if v != id && At(cfg, v).port == At(cfg, id).port && IsRunning(sl) && Resolves(v, sl, o) {
          victims := victims + {v};
          pids := pids + {sl.Proc()};
        }
        todo := todo - {v};
      }
    }

    method FreeOccupiedPort(id: string, o: Oracle)
      requires Valid()
      modifies this`live, this`st
      ensures Valid() && st == FreePort(cfg, old(st), id, o)
    {
      hide Heap, Registers;
      var victims, pids := FindVictims(id, o);
      BookFree(id, victims, pids, o);
      assert st.procs == old(st).procs;
    }

    /** The owner scan of acquireGPU: it stops at the first one it meets. */
    method FindOwner(id: string) returns (owner: Option<string>)
      requires Valid()
      ensures owner == None ==> Owners(cfg, st, id) == {}
      ensures owner.Some? ==> owner.value in Owners(cfg, st, id) && owner.value in procs
    {
      var todo := procs.Keys;
      while todo != {}
        invariant todo <= procs.Keys && Owners(cfg, st, id) <= todo
        decreases todo
      {
        var v :| v in todo;
        if v != id && IsRunning(procs[v]) && At(cfg, v).gpu == At(cfg, id).gpu {
          return Some(v);
        }
        todo := todo - {v};
      }
      return None;
    }

    /** acquireGPU.  The oracle it returns names the owner its scan met. */
    method AcquireGPU(id: string, o: Oracle) returns (ok: bool, o': Oracle)
      requires Valid()
      modifies this, repr
      ensures Valid() && old(repr) <= repr && fresh(repr - old(repr))
      ensures o' == o.(pick := o'.pick)
      ensures Acquire(cfg, old(st), id, o') == if ok then Some(st) else None
      ensures !ok ==> st == old(st)
    {
      hide Heap, Registers;
      o' := o;
      if At(cfg, id).gpu == "" {
        return true, o';
      }
      var owner := FindOwner(id);
      if owner == None {
        return true, o';
      }
      o' := o.(pick := owner.value);
      if At(cfg, owner.value).resident {
        return false, o';
      }
      SuspendSlot(owner.value);
      return true, o';
    }

    // Launching and restarting.

    method PlaceSlot(id: string, start: bool)
      requires Valid()
      modifies this, repr
      ensures Valid() && old(repr) <= repr && fresh(repr - old(repr))
      ensures st == Place(old(st), id, start)
    {
      hide Registers;
      var cmd := 0;
      if start {
        cmd := NextProc();
      }
      NewSlot(id, cmd, st.nextCh);
      BookPlace(id, start);
    }

    method LaunchSlot(id: string, o: Oracle)
      requires Valid()
      modifies this, repr
      ensures Valid() && old(repr) <= repr && fresh(repr - old(repr))
      ensures st == Launch(cfg, old(st), id, o)
    {
      hide Heap, Registers;
      if At(cfg, id).command == "" {
        PlaceSlot(id, false);
      } else {
        FreeOccupiedPort(id, o);
        PlaceSlot(id, id in o.starts);
      }
    }

    method NeedsRestart(id: string) returns (r: bool)
      requires Valid()
      ensures r <==> NeedRestart(cfg, st, id)
    {
      hide Heap;
      var running := Running(id);
      return id in procs && !running && At(cfg, id).mode == Background && id in expected
        && At(cfg, id).command != "" && !(id in nextRestartAt && now < nextRestartAt[id]);
    }

    method RestartMember(id: string, o: Oracle) returns (o': Oracle)
      requires Valid()
      modifies this, repr
      ensures Valid() && old(repr) <= repr && fresh(repr - old(repr))
      ensures o' == o.(pick := o'.pick)
      ensures st == Restart(cfg, old(st), id, o')
    {
      hide Heap, Registers;
      o' := o;
      var need := NeedsRestart(id);
      if !need {
        return o';
      }
      var ok;
      ok, o' := AcquireGPU(id, o);
      if !ok {
        return o';
      }
      FreeOccupiedPort(id, o');
      if id in o'.starts && id in procs {
        RerunSlot(id);
      }
    }

    // Switching.

    /** The scan of stopAll: the slots that stay, and the processes that go. */
    method Partition() returns (kept: map<string, ProcSlot>, stopped: set<nat>)
      requires Valid()
      ensures kept.Keys == set id | id in st.procs && Survives(cfg, id)
      ensures forall id | id in kept :: id in procs && kept[id] == procs[id]
      ensures stopped == set id | id in st.procs && !Survives(cfg, id) :: st.procs[id].Proc()
    {
      kept, stopped := map[], {};
      var todo := procs.Keys;
      while todo != {}
        invariant todo <= procs.Keys
        invariant kept.Keys == set id | id in procs && id !in todo && Survives(cfg, id)
        invariant forall id | id in kept :: kept[id] == procs[id]
        invariant stopped == set id | id in st.procs && id !in todo && !Survives(cfg, id) :: st.procs[id].Proc()
        decreases todo
      {
        var id :| id in todo;
        var e := At(cfg, id);
        if e.mode == Background && (e.resident || e.gpu == "") {
          kept := kept[id := procs[id]];
        } else {
          stopped := stopped + {procs[id].Proc()};
        }
        todo := todo - {id};
      }
    }

    method KeepSlots(kept: map<string, ProcSlot>)
      requires this !in repr && Heap() && forall id | id in kept :: id in procs && kept[id] == procs[id]
      modifies this`procs, this`slots
      ensures Heap() && procs == kept && slots == map id | id in kept && id in old(slots) :: old(slots)[id]
    {
      procs := kept;
      slots := map id | id in kept && id in slots :: slots[id];
    }

    method StopEverything()
      requires Valid()
      modifies this, repr
      ensures Valid() && repr == old(repr)
      ensures st == StopAll(cfg, old(st))
    {
      hide Heap, Registers;
      var kept, stopped := Partition();
      KeepSlots(kept);
      BookStopAll(kept.Keys, stopped);
    }

    /** One target of a switch. */
    method LaunchTarget(id: string, o: Oracle)
      requires Valid()
      modifies this, repr
      ensures Valid() && old(repr) <= repr && fresh(repr - old(repr))
      ensures st == Target(cfg, old(st), id, o)
    {
      hide Heap, Registers;
      var running := Running(id);
      var sleeping := Sleeping(id);
      if running || sleeping {
        BookExpected(id);
      } else {
        LaunchSlot(id, o);
      }
    }

    /** The targets a switch waits for: all but the sleeping ones. */
    method Awaited(ids: seq<string>) returns (awaited: set<string>)
      requires Valid()
      ensures awaited == set id | id in ids && !(id in st.procs && st.procs[id].sleeping)
    {
      awaited := {};
      for i := 0 to |ids|
        invariant awaited == set id | id in ids[..i] && !(id in st.procs && st.procs[id].sleeping)
      {
        var sleeping := Sleeping(ids[i]);
        assert ids[..i + 1] == ids[..i] + [ids[i]];
        if !sleeping {
          awaited := awaited + {ids[i]};
        }
      }
      assert ids[..|ids|] == ids;
    }

    /** switchTo, up to the wait. */
    method Switch(ids: seq<string>, mode: Mode, o: Oracle)
      requires Valid() && ids != []
      modifies this, repr
      ensures Valid() && old(repr) <= repr && fresh(repr - old(repr))
      ensures st == SwitchTo(cfg, old(st), ids, mode, o)
    {
      hide Heap, Registers, Target, StopAll;
      StopEverything();
      ghost var stopped := st;
      for i := 0 to |ids|
        invariant Valid() && old(repr) <= repr && fresh(repr - old(repr))
        invariant Targets(cfg, st, ids[i..], o) == Targets(cfg, stopped, ids, o)
      {
        assert ids[i..][0] == ids[i] && ids[i..][1..] == ids[i + 1..];
        LaunchTarget(ids[i], o);
      }
      assert ids[|ids|..] == [] && Targets(cfg, st, [], o) == st;
      var awaited := Awaited(ids);
      BookSwitch(ids, mode, awaited);
    }

    /** A switch to the startup set, which the oracle it returns lists. */
    method SwitchToGroup(o: Oracle) returns (o': Oracle)
      requires Valid()
      modifies this, repr
      ensures Valid() && old(repr) <= repr && fresh(repr - old(repr))
      ensures o' == o.(group := o'.group) && IsGroup(cfg, o'.group)
      ensures st == GroupSwitch(cfg, old(st), o')
    {
      hide Heap, Registers;
      var group := DefaultBackgroundGroup(cfg);
      o' := o.(group := group);
      if group != [] {
        Switch(group, Background, o');
      }
    }

    /** The end of a switch: oks are the targets whose probes succeeded. */
    method FinishSwitch(oks: seq<string>, o: Oracle)
      requires Valid()
      modifies this, repr
      ensures Valid() && repr == old(repr)
      ensures st == MarkAll(cfg, old(st), oks, o).(flight := Idle)
    {
      hide Heap, Registers;
      for i := 0 to |oks|
        invariant Valid() && repr == old(repr)
        invariant MarkAll(cfg, st, oks[i..], o) == MarkAll(cfg, old(st), oks, o)
      {
        assert oks[i..][0] == oks[i] && oks[i..][1..] == oks[i + 1..];
        MarkSlotReady(oks[i], o);
      }
      ClearSwitchInflight();
    }

    // Requests.

    /** A promise is kept by the slot of the model it was made for. */
    ghost predicate Kept(id: string, p: Promise)
      reads this`procs, procs.Values
    {
      p.On? ==> id in procs && procs[id].readyCh == p.ch
    }

    method ChannelOf(id: string) returns (p: Promise)
      requires Valid() && id in procs
      ensures Kept(id, p) && p.Value() == Granted(st.procs[id].ch)
    {
      return On(procs[id].readyCh);
    }

    method BackoffIsActive(id: string) returns (r: bool)
      requires Registers()
      ensures r <==> BackoffActive(st, id)
    {
      return id in nextRestartAt && now < nextRestartAt[id];
    }

    method SwitchInFlight() returns (r: bool)
      requires Registers()
      ensures r <==> st.flight != Idle
    {
      return flight != Idle;
    }

    /** codingProcRunningLocked. */
    method CodingProcRunning() returns (r: bool)
      requires Valid()
      ensures r <==> CodingRunning(cfg, st)
    {
      var todo := procs.Keys;
      while todo != {}
        invariant todo <= procs.Keys
        invariant forall id | id in procs && id !in todo :: !(Runs(st, id) && At(cfg, id).mode == Coding)
        decreases todo
      {
        var id :| id in todo;
        if IsRunning(procs[id]) && At(cfg, id).mode == Coding {
          return true;
        }
        todo := todo - {id};
      }
      return false;
    }

    /** codingLeaseActive. */
    method CodingLeaseActive() returns (r: bool)
      requires Valid()
      ensures r <==> LeaseActive(cfg, st)
    {
      hide Heap;
      var coding := CodingProcRunning();
      return coding && cfg.lease > 0 && lastCodingAt != 0 && now - lastCodingAt < cfg.lease;
    }

    /** What a switch hands back for id. */
    method AfterSwitching(id: string) returns (p: Promise)
      requires Valid()
      ensures Kept(id, p) && (st, p.Value()) == AfterSwitch(st, id)
    {
      if flight.Switching? && id in flight.wait && id in procs {
        p := ChannelOf(id);
      } else {
        p := Nothing;
      }
    }

    /** The part of ensureCoding that holds switchMu. */
    method CodingLocked(id: string, o: Oracle) returns (p: Promise)
      requires Valid()
      modifies this, repr
      ensures Valid() && old(repr) <= repr && fresh(repr - old(repr))
      ensures Kept(id, p) && (st, p.Value()) == LockedCoding(cfg, old(st), id, o)
    {
      hide Heap, Registers;
      var running := Running(id);
      if running {
        p := ChannelOf(id);
        return p;
      }
      Switch([id], Coding, o);
      p := AfterSwitching(id);
    }

    method EnsureCodingModel(id: string, o: Oracle) returns (p: Promise)
      requires Valid()
      modifies this, repr
      ensures Valid() && old(repr) <= repr && fresh(repr - old(repr))
      ensures Kept(id, p) && (st, p.Value()) == EnsureCoding(cfg, old(st), id, o)
    {
      hide Heap, Registers;
      var running := Running(id);
      if running {
        p := ChannelOf(id);
        return p;
      }
      var backoff := BackoffIsActive(id);
      if backoff {
        return Refusal;
      }
      var busy := SwitchInFlight();
      if busy {
        PreemptLowerPriority(Coding, id);
        return Busy;
      }
      p := CodingLocked(id, o);
    }

    /** Clear the card, launch the model beside the others, register the wait. */
    method LaunchBeside(id: string, o: Oracle) returns (p: Promise, o': Oracle)
      requires Valid()
      modifies this, repr
      ensures Valid() && old(repr) <= repr && fresh(repr - old(repr))
      ensures o' == o.(pick := o'.pick) && Kept(id, p)
      ensures (st, p.Value()) == AcquireAndLaunch(cfg, old(st), id, o')
    {
      hide Heap, Registers, Acquire, Launch;
      var ok;
      ok, o' := AcquireGPU(id, o);
      if !ok {
        return Refusal, o';
      }
      LaunchSlot(id, o');
      BookAlone(id);
      p := AfterSwitching(id);
    }

    /** The part of ensureOnDemandBackground that holds switchMu. */
    method OnDemandLocked(id: string, o: Oracle) returns (p: Promise, o': Oracle)
      requires Valid()
      modifies this, repr
      ensures Valid() && old(repr) <= repr && fresh(repr - old(repr))
      ensures o' == o.(pick := o'.pick) && Kept(id, p)
      ensures (st, p.Value()) == LockedOnDemand(cfg, old(st), id, o')
    {
      hide Heap, Registers;
      var running := Running(id);
      if running {
        p := ChannelOf(id);
        return p, o;
      }
      p, o' := LaunchBeside(id, o);
    }

    method EnsureOnDemandModel(id: string, o: Oracle) returns (p: Promise, o': Oracle)
      requires Valid()
      modifies this, repr
      ensures Valid() && old(repr) <= repr && fresh(repr - old(repr))
      ensures o' == o.(pick := o'.pick) && Kept(id, p)
      ensures (st, p.Value()) == EnsureOnDemand(cfg, old(st), id, o')
    {
      hide Heap, Registers;
      o' := o;
      var running := Running(id);
      if running {
        p := ChannelOf(id);
        return p, o';
      }
      var backoff := BackoffIsActive(id);
      if backoff {
        return Refusal, o';
      }
      var busy := SwitchInFlight();
      if busy {
        PreemptLowerPriority(Background, id);
        return Busy, o';
      }
      p, o' := OnDemandLocked(id, o);
    }

    /** A member of the startup set that has its slot. */
    method EnsureMemberModel(id: string, o: Oracle) returns (p: Promise, o': Oracle)
      requires Valid() && id in procs
      modifies this, repr
      ensures Valid() && old(repr) <= repr && fresh(repr - old(repr))
      ensures o' == o.(pick := o'.pick) && Kept(id, p)
      ensures (st, p.Value()) == EnsureMember(cfg, old(st), id, o')
    {
      hide Heap, Registers;
      o' := o;
      var running := Running(id);
      if running {
        p := ChannelOf(id);
        return p, o';
      }
      var busy := SwitchInFlight();
      if busy {
        return Busy, o';
      }
      o' := RestartMember(id, o);
      RestartChannel(cfg, old(st), id, o');
      p := ChannelOf(id);
    }

    /** The part of it that holds switchMu. */
    method GroupLocked(id: string, o: Oracle) returns (p: Promise, o': Oracle)
      requires Valid()
      modifies this, repr
      ensures Valid() && old(repr) <= repr && fresh(repr - old(repr))
      ensures Resolved(o, o') && IsGroup(cfg, o'.group) && Kept(id, p)
      ensures (st, p.Value()) == LockedGroup(cfg, old(st), id, o')
    {
      hide Heap, Registers;
      var coding := CodingRegistered();
      var running := Running(id);
      if !coding && running {
        var group := DefaultBackgroundGroup(cfg);
        o' := o.(group := group);
        p := ChannelOf(id);
        return p, o';
      }
      o' := SwitchToGroup(o);
      p := AfterSwitching(id);
    }

    /** The rest of ensureBackground: switch the startup set in. */
    method EnsureGroupModel(id: string, o: Oracle) returns (p: Promise, o': Oracle)
      requires Valid()
      modifies this, repr
      ensures Valid() && old(repr) <= repr && fresh(repr - old(repr))
      ensures Resolved(o, o') && IsGroup(cfg, o'.group) && Kept(id, p)
      ensures (st, p.Value()) == EnsureGroup(cfg, old(st), id, o')
    {
      hide Heap, Registers;
      var coding := CodingRegistered();
      var lease := CodingLeaseActive();
      var group := DefaultBackgroundGroup(cfg);
      o' := o.(group := group);
      if coding && lease {
        return Nothing, o';
      }
      var busy := SwitchInFlight();
      if busy {
        return Busy, o';
      }
      p, o' := GroupLocked(id, o);
    }

    method CodingRegistered() returns (r: bool)
      requires Registers()
      ensures r <==> st.codingModel != ""
    {
      return codingModel != "";
    }

    method EnsureBackgroundModel(id: string, o: Oracle) returns (p: Promise, o': Oracle)
      requires Valid()
      modifies this, repr
      ensures Valid() && old(repr) <= repr && fresh(repr - old(repr))
      ensures Resolved(o, o') && Kept(id, p)
      ensures IsGroup(cfg, o.group) ==> IsGroup(cfg, o'.group)
      ensures (st, p.Value()) == EnsureBackground(cfg, old(st), id, o')
    {
      hide Heap, Registers;
      var group := DefaultBackgroundGroup(cfg);
      if id !in group {
        p, o' := EnsureOnDemandModel(id, o);
        return;
      }
      var coding := CodingRegistered();
      if id in procs && (At(cfg, id).resident || !coding) {
        p, o' := EnsureMemberModel(id, o);
        return;
      }
      p, o' := EnsureGroupModel(id, o);
    }

    /** The proxy's guard, then EnsureModel. */
    method GuardedEnsure(id: string, o: Oracle) returns (p: Promise, o': Oracle)
      requires Valid()
      modifies this, repr
      ensures Valid() && old(repr) <= repr && fresh(repr - old(repr))
      ensures Resolved(o, o') && Kept(id, p)
      ensures IsGroup(cfg, o.group) ==> IsGroup(cfg, o'.group)
      ensures (st, p.Value()) == Guarded(cfg, old(st), id, o')
    {
      hide Heap, Registers;
      o' := o;
      var e := At(cfg, id);
      if e.mode == Background && !e.resident && e.gpu != "" {
        var coding := CodingProcRunning();
        if coding {
          return Refusal, o';
        }
      }
      if e.mode == Coding {
        p := EnsureCodingModel(id, o);
      } else {
        p, o' := EnsureBackgroundModel(id, o);
      }
    }

    /** A request for model id: note it, apply the guard, make sure the model runs. */
    method Ask(id: string, o: Oracle) returns (p: Promise, o': Oracle)
      requires Valid()
      modifies this, repr
      ensures Valid() && old(repr) <= repr && fresh(repr - old(repr))
      ensures Resolved(o, o') && IsGroup(cfg, o'.group) && Kept(id, p)
      ensures (st, p.Value()) == Request(cfg, old(st), id, o')
    {
      hide Heap, Registers;
      var group := DefaultBackgroundGroup(cfg);
      o' := o.(group := group);
      var e := Entry(cfg, id);
      if e == None || id == "" || id == PROXY_MODEL_ID {
        return Refusal, o';
      }
      match e.value.mode {
        case Coding => TouchCoding();
        case Background => TouchModel(id);
        case Unknown(_) =>
      }
      p, o' := GuardedEnsure(id, o');
    }

    /** No stale "ready", on the heap: a model that is asleep or has no slot is promised a
        channel that is still open, and it is the one its own slot will close. */
    method AskAsleep(id: string, o: Oracle, ghost log: seq<Event>) returns (p: Promise)
      requires Valid() && Good(cfg) && Legal(cfg, log) && st == Reached(cfg, log)
      requires Asleep(st, id) || id !in st.procs
      modifies this, repr
      ensures Valid() && old(repr) <= repr && fresh(repr - old(repr))
      ensures p.On? ==> id in procs && procs[id].readyCh == p.ch && !p.ch.closed
    {
      hide Registers, Request;
      var o';
      p, o' := Ask(id, o);
      NoStaleReady(cfg, log, id, o');
      RequestLifecycle(cfg, log, id, o');
      if p.On? {
        assert procs[id].Stands(id, slots[id]);
      }
    }

    // The probe loop.

    /** Is the slot due to be put to sleep? */
    method DueToSleep(id: string) returns (r: bool)
      requires Valid()
      ensures r <==> SleepsNow(cfg, st, id)
    {
      return id in procs && IsRunning(procs[id]) && procs[id].readyOK && !procs[id].sleeping
        && At(cfg, id).mode == Background && At(cfg, id).sleepTimeout > 0
        && !(id in inflight && inflight[id] > 0)
        && id in lastActiveAt && lastActiveAt[id] != 0 && now - lastActiveAt[id] > At(cfg, id).sleepTimeout;
    }

    method IsReady(id: string) returns (r: bool)
      requires Valid() && id in procs
      ensures r <==> st.procs[id].readyOK
    {
      return procs[id].readyOK;
    }

    /** Has the wrapper gone, with no server to adopt? */
    method IsGone(id: string, o: Oracle) returns (r: bool)
      requires Valid() && id in procs
      ensures r <==> Gone(cfg, st, id, o)
    {
      return procs[id].cmd == 0 && !Resolves(id, procs[id], o);
    }

    /** One iteration of reconcile's loop. */
    method VisitSlot(id: string, o: Oracle) returns (o': Oracle)
      requires Valid()
      modifies this, repr
      ensures Valid() && old(repr) <= repr && fresh(repr - old(repr))
      ensures o' == o.(pick := o'.pick)
      ensures st == Visit(cfg, old(st), id, o')
    {
      hide Heap, Registers;
      o' := o;
      var sleeping := Sleeping(id);
      if id !in procs || sleeping {
        return;
      }
      var ready := IsReady(id);
      if ready {
        var due := DueToSleep(id);
        if due {
          SuspendSlot(id);
        }
        return;
      }
      if At(cfg, id).readinessURL == "" {
        return;
      }
      var gone := IsGone(id, o);
      if gone {
        ForgetServer(id);
        if At(cfg, id).mode == Background {
          o' := RestartMember(id, o);
        }
        return;
      }
      if id in o.probes {
        MarkSlotReady(id, o);
      }
    }

    /** reconcile's first test, and what it does about it. */
    method RecoverCoding(o: Oracle) returns (o': Oracle)
      requires Valid()
      modifies this, repr
      ensures Valid() && old(repr) <= repr && fresh(repr - old(repr))
      ensures o' == o.(group := o'.group) && IsGroup(cfg, o'.group)
      ensures st == Recover(cfg, old(st), o')
    {
      hide Heap, Registers;
      var group := DefaultBackgroundGroup(cfg);
      o' := o.(group := group);
      if group == [] {
        ClearCoding();
      } else {
        Switch(group, Background, o');
      }
    }

    /** The steps that leave nothing to choose. */
    method PerformPlain(ev: Event)
      requires Valid()
      requires !ev.Start? && !ev.Ask? && !ev.Visited? && !ev.Recovered? && !ev.LeaseTick?
      modifies this, repr
      ensures Valid() && repr == old(repr)
      ensures st == Apply(cfg, old(st), ev)
    {
      hide Heap, Registers, Reap, MarkReady, MarkAll;
      match ev {
        case Ready(id, o) => MarkSlotReady(id, o);
        case Finish(oks, o) => FinishSwitch(oks, o);
        case Reaped(id, proc, o) => ReapCommand(id, proc, o);
        case Exited(proc) => Exit(proc);
        case Touched => TouchCoding();
        case Entered(id) => ModelEnter(id);
        case Left(id) => ModelLeave(id);
        case Tick(d) => Pass(d);
      }
    }

    /** Any step, by its event; the event it returns has the oracle's choices filled in. */
    method Perform(ev: Event) returns (ev': Event)
      requires Valid()
      modifies this, repr
      ensures Valid() && old(repr) <= repr && fresh(repr - old(repr))
      ensures st == Apply(cfg, old(st), ev')
      ensures SameStep(ev, ev') && (Allowed(cfg, old(st), ev) ==> Enabled(cfg, old(st), ev'))
    {
      hide Heap, Registers, Request, Visit, Recover, GroupSwitch, Reap, MarkReady, MarkAll;
      hide VisitLocks, LeaseExpired, DeadNeverReady, IsGroup;
      ev' := ev;
      match ev {
        case Start(o) =>
          var o' := SwitchToGroup(o);
          BookStarted();
          ev' := Start(o');
        case Ask(id, o) =>
          var p, o' := Ask(id, o);
          ev' := Event.Ask(id, o');
        case Visited(id, o) =>
          var o' := VisitSlot(id, o);
          SameLocks(cfg, old(st), id, o, o');
          ev' := Visited(id, o');
        case Recovered(o) =>
          var o' := RecoverCoding(o);
          ev' := Recovered(o');
        case LeaseTick(o) =>
          var o' := SwitchToGroup(o);
          ev' := LeaseTick(o');
        case _ => PerformPlain(ev);
      }
    }

    /** The object never leaves the runs of the machine: what holds in every reachable
        state holds of it after every step. */
    method Step(ev: Event, ghost log: seq<Event>) returns (ghost log': seq<Event>)
      requires Valid() && Legal(cfg, log) && st == Reached(cfg, log)
      requires Allowed(cfg, st, ev)
      modifies this, repr
      ensures Valid() && old(repr) <= repr && fresh(repr - old(repr))
      ensures Legal(cfg, log') && st == Reached(cfg, log')
      ensures |log'| == |log| + 1 && log <= log' && SameStep(ev, log'[|log|])
    {
      hide Heap, Registers, Apply, Enabled, Allowed;
      var ev' := Perform(ev);
      log' := log + [ev'];
      RunExtends(cfg, INIT, log, ev');
    }
  }

  lemma RequestLifecycle(cfg: Scheduling, log: seq<Event>, id: string, o: Oracle)
    requires Good(cfg) && Legal(cfg, log) && IsGroup(cfg, o.group)
    ensures Lifecycle(Request(cfg, Reached(cfg, log), id, o).0)
  {
    hide Request;
    ReachedInv(cfg, log);
    RequestInv(cfg, Reached(cfg, log), id, o);
  }

  lemma SameLocks(cfg: Scheduling, st: State, id: string, o: Oracle, o': Oracle)
    requires Resolved(o, o')
    ensures VisitLocks(cfg, st, id, o) == VisitLocks(cfg, st, id, o')
  {
  }

  /** What the environment must grant a step: everything Enabled asks except the order of
      the startup set, which the object computes itself. */
  ghost predicate Allowed(cfg: Scheduling, st: State, ev: Event) {
    match ev
    case Start(o) => !st.started && st.flight == Idle
    case Ready(id, o) => st.flight.Switching? && id in st.flight.wait
    case Finish(oks, o) => st.flight.Switching? && forall id :: id in oks ==> id in st.flight.wait
    case Visited(id, o) => VisitLocks(cfg, st, id, o) ==> st.flight == Idle
    case Recovered(o) => DeadNeverReady(st) && st.flight == Idle
    case LeaseTick(o) => LeaseExpired(cfg, st) && st.flight == Idle
    case _ => true
  }

  /** ev' is ev but for the choices of its oracle. */
  ghost predicate SameStep(ev: Event, ev': Event) {
    match ev
    case Start(o) => ev'.Start? && Resolved(o, ev'.o)
    case Ask(id, o) => ev'.Ask? && ev'.id == id && Resolved(o, ev'.o)
    case Visited(id, o) => ev'.Visited? && ev'.id == id && Resolved(o, ev'.o)
    case Recovered(o) => ev'.Recovered? && Resolved(o, ev'.o)
    case LeaseTick(o) => ev'.LeaseTick? && Resolved(o, ev'.o)
    case _ => ev' == ev
  }
}
