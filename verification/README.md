# LLM proxy: process scheduler, validators, balancer and failover

A Dafny model of the parts of the proxy that decide which local model server runs, on which
card, and which backend a request is forwarded to, together with the three self-contained
algorithms they lean on (connection-string parsing, process-tree collection, the wait for GPU
memory).

## What is modelled

The **scheduler** starts, stops and watches one server process per model.  Background models run
side by side; a coding model runs alone except for *survivors* (background models that are
resident or declare no GPU).  Models that declare the same GPU are swapped.  The scheduler also
puts idle models to sleep, restarts crashed ones, backs off from failing ones and returns to the
startup set when a coding process dies or its lease runs out.

It is written twice.  `Machine.dfy` is the state machine: what the scheduler's locks protect, plus
the operating system it observes, as one value; every step is a function of the state and an
*oracle* that carries what the environment decides (which commands start, which servers listen,
which probes succeed, which owner a map iteration meets first, in what order the startup set is
listed).  `Scheduler.dfy` is the program's own form: a class whose fields are those of the Go
struct, with slots and channels on the heap, changed in place by methods with loops.  Every such
method is proved to make exactly the step of the machine, and `Scheduler.Scheduler.Step` carries
any run of the object over to a run of the machine, so the theorems below hold of the object.  The
precondition of `Channel.Close` makes closing a channel twice a verification error.

Properties of whole runs are proved in three layers: `Invariants.dfy` and `Steps.dfy` (what every
step keeps), `Moves.dfy` (every step is a chain of primitive moves, each with its side condition)
with `Safety.dfy` and `Continuity.dfy` (what the moves keep, hence what whole runs keep), and
`Theorems.dfy`, `Requests.dfy`, `Ports.dfy`, `Aliases.dfy` (the results).  A run may ask for any id;
a result that needs requests to spell ids as configured says so (`Canonical`, or `asSpelled` where
both readings are stated).

What the single operations do is stated from the outside as well, in the fields of the state and
without the machine's own tests.  `Outcomes.dfy`: the reply to a request for any model in any state,
and the state after it slot by slot.  `Probes.dfy`: a look of the probe loop, the end of a switch, the
end of a command, the ways back to the startup set, and when the channel a caller holds is closed.
`Clocks.dfy`: how long leases, backoff windows and idleness last, and what the in-flight count counts.
`Preemption.dfy`: which requests cancel a switch.  `Lifetimes.dfy`: when a model falls asleep, and
that no process is left without a slot.  `Turns.dfy`: what a caller does that had to wait.

The machine's steps are atomic.  `Worlds.dfy` opens them up: a probe may be acted on late, a
suspension is cut in two around the kill, and a caller that finds `switchMu` taken waits with what it
decided before.  `Races.dfy` proves which runs of that finer machine keep every promise, and that the
rest do break one; `Hazards.dfy` shows such runs from the initial state.  `Reapers.dfy` follows the
goroutines that report the exit of a command, which may come back before the command's slot is
registered.

`Validate.dfy` holds the configuration validators as loops over maps in any order, each proved
equivalent to its pairwise specification.  `Balancer.dfy`, `Accounting.dfy` and `Failover.dfy` are
the load-aware selection, its counters over interleavings with pool rebuilds, and the retry loop
with its bookkeeping.  `Dsn.dfy`, `ProcTree.dfy` and `GpuWait.dfy` are self-contained.

## Assumptions

- Each event of the machine is atomic under the scheduler's locks.  This is an assumption for
  `Start`, `Loop` and `reconcile`, which call `switchTo` without taking `switchMu`
  (internal/scheduler/scheduler.go:158, internal/scheduler/reconcile.go:72 and
  internal/scheduler/reconcile.go:98).
- In the machine the proxy's guard, the backoff test and `EnsureModel` are one step, a probe and the
  marking that follows are one step, and so is `suspendSlot`.  The code breaks each of these; what
  then holds is `Races.SoundExactlyWhen`.  A switch (`switchTo`, from stopping to registering) and a
  launch stay atomic there too; `Reapers.ReportedExactlyWhen` says what a launch that is not atomic
  costs.
- `Worlds.dfy` lets several visits of the probe loop wait for `switchMu` and a mark come at any time;
  the code's loop is one goroutine and can do less.  The equivalences hold of the larger set of runs;
  the runs of `Hazards.dfy` are ones the code can make.
- A port lookup for a slot finds that slot's own server or nothing, and a process id is not used
  again: processes are named by launch numbers.  Same-GPU models that share a port rely on this,
  because the real lookup is by port only (internal/scheduler/reconcile.go:152-160).
- Killing a process tree succeeds within its time limit.
- Configured ids carry no edge white space (`KeysTrimmed`); the validators do not check it, and
  `Validate.UntrimmedKeyUnreachable` shows such an id cannot be asked for.
- Backend names are unique where routing by model id is concerned.
- Time is a logical clock in nanoseconds.  `Loop` runs only when the lease is positive
  (internal/scheduler/reconcile.go:23-25), so recovery is stated for a positive lease.

## Where the code and its documentation differ

- README.md:72 of the repository says a group switch never disturbs a sleeping member.
  `Theorems.SwitchSparesSleeper`: it leaves a sleeper asleep exactly when that is a survivor.
- README.md:51 and README.md:74 say GPU-less background models are served as usual while a coding
  model is registered.  `Requests.CpuMemberServedExactlyWhen`: a member of the startup set is, running
  or not, only if the lease is over, no switch is under way and the member does not sleep, and then at
  the price of stopping the coding model.  While the lease is active its caller gets a channel nobody
  closes, even if the member is ready.
- internal/config/validate.go:46-57 means to rule out port clashes but compares origins as text:
  `Ports.SpellingsSlipThrough` has two members at 127.0.0.1:8080 and localhost:8080 accepted, and a run
  that kills one server for the other.  `Ports.BackgroundsSafeExactlyWhen` gives the condition on
  ports under which no background server is ever killed for another one, and
  `Ports.SurvivorSafeExactlyWhen` the one for survivors: a coding model may share a survivor's port,
  and then kills it.
- `Entry` trims a requested id, the slot table does not, so a model may get a second slot under another
  spelling of its id, exactly when nothing stands in the way of launching it
  (`Aliases.SecondSlotExactlyWhen`).  That kills the model's own server when it declares no GPU
  (`Aliases.SecondSlotKills`), and a resident member of the startup set may come to run twice on its
  card (`Aliases.DoubledAtStart`, `Aliases.DoubledByRecovery`).  Exclusivity survives any spelling
  exactly under the conditions of `Aliases.GPUExclusiveExactlyWhen` and
  `Aliases.OriginsExclusiveExactlyWhen`.
- internal/scheduler/reconcile.go:176-179 probes a slot without a lock and marks it ready without asking
  again whether it sleeps: a model evicted in between ends up asleep and marked ready
  (`Hazards.LateMarkComesTrue`, `Hazards.LateMarkRun`).  internal/scheduler/scheduler.go:242-252 and
  354-366 start a model without asking again for its backoff or the guard
  (`Hazards.BackoffIgnoredRun`, `Hazards.LaunchBesideCodingRun`, `Hazards.GroupStopsCodingRun`).
- internal/scheduler/switching.go:239-243 starts the reaper before it registers the slot: a command that
  exits in between is never reported (`Reapers.ReportedExactlyWhen`).  A coding model so launched counts
  as running for as long as only it is asked for (`Reapers.StuckStays`), until the lease branch or a
  request for another model ends that.
- A backend's counter stays exact if and only if the backend is drained before it leaves the pool and
  nothing is forwarded to it while it is out: `Accounting.CountExactExactlyWhen`.  Weights below 1,
  which the configuration refuses, may make selection depend on map order:
  `Balancer.OrderFreeExactlyWhen` says exactly when.
- The administrative connection string changes a quoted value that begins or ends with white space
  and needs no quotes for anything else: `Dsn.QuotedKeptExactlyWhen`, `Dsn.EdgeTabIsLost`.

## Model

| member | source | states |
|---|---|---|
| Theorems.GPUExclusive | internal/scheduler/scheduler.go:411-455 | over every run of an accepted configuration, whatever ids are asked for, two running slots on one GPU are one resident startup member under two spellings of its id |
| Theorems.GPUExclusiveAsSpelled | internal/scheduler/scheduler.go:411-455 | over every run that spells ids as configured, at most one running model declares any given GPU |
| Invariants.ScanSuffices | internal/scheduler/scheduler.go:416-428 | stopping the scan at the first owner suffices: if there is a second one, both are resident and the request is refused; otherwise nobody holds the card after the eviction |
| Theorems.CodingExclusive | internal/scheduler/scheduler.go:216-455 | over every run, whatever ids are asked for, while a coding process runs it is the registered model and every other slot is a background one that is resident or declares no GPU |
| Theorems.CodingNeverEvicted | internal/scheduler/scheduler.go:430-455 | over every run of the atomic machine, whatever ids are asked for, no coding slot is ever suspended |
| Steps.ArbitrationSparesCoding | proxy_backend.go:99-102 | whoever holds the card a guarded request needs is a background model, so arbitration never stops a coding one |
| Theorems.RegistersAgree | internal/scheduler/process.go:57-74 | over every run the expected set is exactly the slots, at most one is a coding slot, and a registered coding model has its slot |
| Theorems.OriginsNotShared | internal/config/validate.go:79-103 | over every run of an accepted configuration two running background slots that share a readiness origin are one model under two spellings of its id, and one slot when requests spell ids as configured |
| Theorems.ChannelsSound | internal/scheduler/switching.go:309-336 | over every run no ready channel is closed twice or shared, readyChClosed tells the truth, ready implies closed, asleep implies stopped, unready and open |
| Requests.NoStaleReady | internal/scheduler/process.go:217-226 | over every run of the atomic machine, whatever ids are asked for, a request for a slept, evicted or absent model gets that model's own channel, still open, or none |
| Requests.WaiterReleasedExactlyWhen | internal/scheduler/switching.go:309-336 | the channel a request was handed while the model was down is closed after the next marking as ready, however long a run lies between, if and only if it was closed in between or the model's slot still carries it |
| Requests.ProbeRace | internal/scheduler/switching.go:309-336 | marking a slot ready keeps the channels sound if and only if the slot is not asleep |
| Requests.CpuMemberServedExactlyWhen | internal/scheduler/scheduler.go:262-321 | when a GPU-less startup member's request is granted and when its caller gets a channel nobody closes, in the fields (registered model, running coding process, time since the last coding traffic), for a member that runs, is down or sleeps; a grant stops the registered coding model |
| Requests.CpuMemberStartsExactlyWhen | internal/scheduler/scheduler.go:262-321 | exactly when the request starts such a member that is down or asleep |
| Outcomes.ReplyExactlyWhen | internal/scheduler/scheduler.go:203-403 | for any model in any state that satisfies the invariant: exactly when a request is refused, gets a channel nobody closes, or waits for the switch under way; otherwise it gets the channel of the model's own slot |
| Outcomes.RequestLeaves | proxy_backend.go:89-103 | the state after it: only the touch after a refusal or for a running model, a cancelled switch or nothing for who waits, and otherwise the switch, the lone launch or the restart the next rows describe |
| Outcomes.SwitchMakes | internal/scheduler/switching.go:24-106 | after a switch exactly the targets and the models that stay have slots, those that stay unchanged; a target that sleeps or has a command is left alone, one that is down has a new slot with a channel of its own; every other process is gone, a staying one only by a launch on its port; the registers name the new coding model, lease and targets awaited |
| Outcomes.AloneMakes | internal/scheduler/scheduler.go:364-384 | a lone launch puts exactly the holder of the card to sleep, kills exactly the servers that listen on the port, gives the model a new slot and changes nothing else |
| Outcomes.RestartMakes | internal/scheduler/reconcile.go:190-256 | a restart happens exactly when it is due, makes room in the same way, and starts the next process behind the slot's old channel |
| Probes.VisitExactlyWhen | internal/scheduler/reconcile.go:126-185 | one look at a slot: put to sleep if due, marked ready if it answers, its vanished server forgotten and a background model restarted, and otherwise nothing |
| Probes.ProbeReleasesExactlyWhen | internal/scheduler/reconcile.go:175-180 | an awake, unready model with a readiness address and a command or a server ends ready, its channel closed, if and only if its probe succeeds |
| Probes.ReadyMarks | internal/scheduler/switching.go:125-130 | a target whose wait ends well is marked ready, its channel closed, its failures forgotten and its idle clock started |
| Probes.FinishMarksExactly | internal/scheduler/switching.go:125-153 | the end of a switch makes ready exactly the targets that answered, closes exactly their channels and frees the next caller |
| Probes.ReapExactlyWhen | internal/scheduler/process.go:145-177 | the end of a command is ignored if the slot no longer holds it; its server is taken over if it answers; otherwise the slot is down and one more failure counted, which from the second on opens the window |
| Probes.Returns | internal/scheduler/reconcile.go:54-99 | start, the end of a lease and the death of an unready coding model switch the startup set in |
| Probes.RecoveryWithoutGroup | internal/scheduler/reconcile.go:88-108 | exactly when the recovery branch comes up; without a startup set it only clears the coding model, and neither branch comes up again |
| Probes.PromiseKeptExactlyWhen | internal/scheduler/reconcile.go:175-180 | the channel a request was handed while the model was down is closed by a later look, however long a run lies between, if and only if it was closed before or the slot still carries it, is awake, unready and answers |
| Probes.RestartKeepsPromise | internal/scheduler/reconcile.go:237-256 | for a restarted startup member that stays up, the first look that finds it answering makes it ready and closes the caller's channel |
| Preemption.StepOverrides | internal/scheduler/switching.go:266-288 | one step cancels the registered switch if and only if it is a request for a coding model that neither runs nor backs off while background models or another coding model are loading; only its end changes it otherwise |
| Preemption.PreemptedExactlyWhen | internal/scheduler/switching.go:299-303 | over every run a preemption is on record exactly when some step was such a request |
| Preemption.CancelledExactlyWhen | internal/scheduler/switching.go:261-288 | over every run a registered switch is cancelled exactly when one came while it lasted |
| Preemption.CodingComesFirst | internal/scheduler/switching.go:249-260 | a request for a background model, or for the coding model that is loading, never cancels a load; one for another coding model always does |
| Lifetimes.SleepsExactlyWhen | internal/scheduler/process.go:185-227 | in any step an awake model falls asleep if and only if the probe loop finds it idle beyond its timeout with nothing in flight, or another model is launched or restarted on its card |
| Lifetimes.NotBeforeTimeout | internal/scheduler/scheduler.go:490-499 | over every run nobody else is ever put to sleep |
| Lifetimes.StepOwnedExactlyWhen | internal/scheduler/reconcile.go:150-174 | a step leaves every process alive behind a slot if and only if the probe loop does not forget a server that lives |
| Lifetimes.NoStrays | internal/scheduler/process.go:96-143 | over every run in which no port lookup misses a living server, every process alive is behind exactly one slot |
| Clocks.LeaseDecides | internal/scheduler/scheduler.go:289-293 | a GPU-less member asked for some time after coding traffic gets a channel nobody closes before the lease is over, and its own, with the coding model stopped, from then on |
| Clocks.LeaseEnds | internal/scheduler/scheduler.go:561-567 | from every reachable state with a coding model registered and no switch under way, one lease without traffic is enough for that |
| Clocks.LeaseBranchDecides | internal/scheduler/reconcile.go:54-66 | the lease branch comes up exactly from the end of the lease on |
| Clocks.WindowsDouble | internal/scheduler/scheduler.go:529-545 | the window of the second failure is 30 s, each later one twice the one before, up to 5 min |
| Clocks.WindowDecidesCoding | internal/scheduler/scheduler.go:554-557 | after its n-th failure a coding model is refused within the n-th window and granted from its end on |
| Clocks.WindowDecidesRestart | internal/scheduler/reconcile.go:190-207 | and a GPU-less background model is restarted by the probe loop from then on, not before |
| Clocks.IdleDecides | internal/scheduler/scheduler.go:490-499 | some time after it was asked for a ready model is put to sleep exactly when that time exceeds its timeout and nothing is in flight |
| Clocks.IdleFromReady | internal/scheduler/switching.go:320-326 | a model nobody asked for idles from the moment it is ready |
| Clocks.CountIsBalance | internal/scheduler/scheduler.go:473-486 | over every run in which nobody leaves who has not entered, a model's count is how often it was entered less how often it was left |
| Theorems.BackoffRespected | internal/scheduler/scheduler.go:529-557 | over every run of the atomic machine a retry time exists only after two failures, and no running model outside the startup set is inside its backoff window |
| Races.SoundExactlyWhen | internal/scheduler/scheduler.go:235-252 | with late marks, kills that take their time and callers that wait for switchMu, every promise holds in every state of a run if and only if every late mark finds its slot awake, every waiting on-demand request finds the guard still holding, and nothing outside the startup set is started inside its backoff window |
| Races.ActExactlyWhen | internal/scheduler/process.go:204-227 | step by step: from a sound state a step leads to a sound one exactly when it is clean in that sense |
| Races.ChannelsExactlyWhen | internal/scheduler/switching.go:309-336 | if marks alone may come late, also during a kill, the channels stay sound in every state if and only if every late mark finds its slot awake |
| Races.EventCommutes | internal/scheduler/process.go:204-227 | whatever goes on during a kill without switchMu commutes with the end of the kill |
| Hazards.LateMarkComesTrue | internal/scheduler/reconcile.go:176-179 | a model that is being probed is evicted by a waiting on-demand request and the mark comes during the kill: it ends up asleep and marked ready, without a process, behind a fresh channel nobody closed, its waiters released; every other act of the run is clean |
| Hazards.LateMarkRun | internal/scheduler/scheduler.go:411-455 | for any two on-demand models of one card that is a run from the initial state |
| Hazards.QueuedRequestIgnoresBackoff | internal/scheduler/scheduler.go:226-252 | of two waiting requests for a coding model that failed before, the second starts it inside the backoff window the first one opened |
| Hazards.BackoffIgnoredRun | internal/scheduler/scheduler.go:226-252 | for any coding model with a command three requests at once make such a run from the initial state |
| Races.LaunchBesideCoding | internal/scheduler/scheduler.go:354-368 | an on-demand model served after the guard stopped holding breaks the promises unless a resident owner stops it: it evicts the coding process, runs beside it or takes its port |
| Hazards.LaunchBesideCodingRun | internal/scheduler/scheduler.go:354-368 | for any on-demand model that declares a GPU and any coding model that is the end of a run from the initial state |
| Hazards.QueuedGroupStopsCoding | internal/scheduler/scheduler.go:306-320 | a member's request that waited to switch the startup set in stops the coding model registered meanwhile, whatever its lease |
| Hazards.GroupStopsCodingRun | internal/scheduler/scheduler.go:306-320 | for any member and any coding model that is the end of a run from the initial state, with the lease active |
| Hazards.StaleReadyDuringKill | internal/scheduler/process.go:205-223 | while its process is being killed a model's request is handed the old channel, closed if the model was ready |
| Reapers.ReportedExactlyWhen | internal/scheduler/switching.go:223-246 | in every state of a run each command a slot holds will be reported when it exits, if and only if no command exits, and is reaped, between its start and the registration of its slot |
| Reapers.StepWatchedExactlyWhen | internal/scheduler/process.go:145-152 | step by step: a step keeps every command watched exactly when it reaps none early |
| Reapers.StuckStays | internal/scheduler/reconcile.go:88-94 | a coding model whose reaper is gone stays registered and running behind the same channel, and no probe pass recovers it, over every run that asks for nothing but it, and for background models only while its lease is active |
| Reapers.StuckRequests | internal/scheduler/scheduler.go:216-223 | its own requests start nothing, get the channel it was left with and renew the lease |
| Reapers.WatchedRecovers | internal/scheduler/process.go:145-177 | if its reaper still waits, the exit is reported and at most two steps more restore the startup set |
| Reapers.StuckRun | internal/scheduler/switching.go:229-246 | for any coding model with a command a first request may leave it stuck |
| Races.AtomicRuns | internal/scheduler/scheduler.go:64-65 | the runs of the atomic machine are the runs in which nobody waits, and all are clean |
| Turns.TurnLeaves | internal/scheduler/scheduler.go:239-252 | what a caller that waited for switchMu does once it has its turn, in fields: nothing for a model that runs by then, else the switch, lone launch, restart or sleep described above |
| Turns.SecondFindsIt | internal/scheduler/scheduler.go:239-252 | of two waiting requests for a coding model the first starts it and the second changes nothing |
| Worlds.KnockThenServe | internal/scheduler/scheduler.go:216-255 | a request is what it does before switchMu and then what it does under it |
| Worlds.KnockIsRequest | internal/scheduler/scheduler.go:216-239 | while a switch is under way it does the first part, and is answered Waiting exactly when it comes to wait |
| Worlds.SpotThenServe | internal/scheduler/reconcile.go:126-174 | likewise for a visit of the probe loop that sleeps or restarts a member |
| Worlds.KillThenResume | internal/scheduler/process.go:204-227 | a kill nothing comes between leaves what the whole step leaves |
| Backoff.ComputeDelay | internal/scheduler/scheduler.go:535-541 | the doubling loop computes min(5 min, base * 2^(n-2)) and no intermediate value exceeds twice the cap |
| Backoff.DelayMonotone | internal/scheduler/scheduler.go:529-545 | more failures never shorten the wait, which never exceeds the cap |
| Theorems.IdleModelsSleep | internal/scheduler/reconcile.go:131-141 | from every reachable state a running, ready member with a sleep timeout and nothing in flight is asleep after one idle timeout and one probe visit |
| Theorems.SurvivorKeepsProcess | internal/scheduler/process.go:50-86 | from every reachable state on, over any run of switches, evictions, restarts and probes, a running pinned survivor keeps its process alive and its channel; only its own exit or idle sleep ends it; pinned against every spelling, or against the configured ones in runs that keep to them |
| Theorems.SurvivorSleepsOn | internal/scheduler/switching.go:64-71 | from every reachable state on, a sleeping survivor sleeps through any run, switches included, in which it is not itself requested |
| Continuity.NoFlapping | internal/scheduler/reconcile.go:131-134 | with no coding model registered no run without requests or start disturbs any sleeping slot |
| Theorems.SwitchSparesSleeper | internal/scheduler/process.go:62-72 | a switch leaves a sleeper asleep if and only if it is a survivor, and then unchanged |
| Theorems.SwitchLeaves | internal/scheduler/switching.go:24-106 | a switch leaves slots for exactly the survivors and the targets, and waits for every target that is not asleep |
| Theorems.SwitchSucceeds | internal/scheduler/switching.go:107-149 | when every awaited probe succeeds each target ends ready or asleep and the switch is cleared |
| Theorems.DeadCodingRecovers | internal/scheduler/reconcile.go:54-108 | from every reachable state whose coding process is dead and in which no switch is under way, at most two clock, probe and lease steps restore the startup set and clear the coding model |
| Theorems.ProbeRecovers | internal/scheduler/reconcile.go:88-108 | a coding process that died before it was ready is recovered by one probe pass |
| Theorems.LeaseRecovers | internal/scheduler/reconcile.go:54-77 | an expired lease is recovered by one lease step |
| Steps.StepInv | internal/scheduler/switching.go:24-159 | every enabled step of the scheduler keeps the whole invariant |
| Steps.RunInv | internal/scheduler/reconcile.go:19-180 | so does every run |
| Moves.StepMoves | internal/scheduler/switching.go:206-247 | every enabled step is a chain of primitive moves, each made under its side condition (a port is freed only for a model that may run beside everything running, a slot is launched only when its GPU is free and, outside the startup set, not inside its backoff window) |
| Safety.RunSafe | internal/scheduler/switching.go:163-192 | over every run only configured commands run, every ready slot has an idle clock, and every server killed by a port clean-up was in conflict with the model launched |
| Safety.AcceptedPorts | internal/config/validate.go:46-104 | the validator rules out port clashes between background models when one port is always written as one origin |
| Url.ReadOff | internal/scheduler/procresolve.go:30-47 | from an address scheme://user@host:port/path, with an IPv6 host in brackets, a query or a fragment, the validator reads the scheme in lower case with host and port as text, and the scheduler the number of the port, 0 when that overflows |
| Url.OriginsAgreeExactlyWhen | internal/config/validate.go:62-68 | two addresses have one origin exactly when host and port are spelled alike, and the schemes but for their case |
| Ports.KillsExactlyConflicts | internal/scheduler/switching.go:163-192 | some run frees a port for k and kills v's server if and only if k and v share a port and k may be launched while v runs; k and v may be spelled in any way |
| Ports.ConflictComesTrue | internal/scheduler/switching.go:217-240 | constructs that run for every pair in conflict |
| Ports.BackgroundsSafeExactlyWhen | internal/config/validate.go:46-104 | no run kills a background server to launch another background model, if and only if background models of one port declare one GPU and, unless requests spell ids as configured, every one with a port declares a GPU and is no resident startup member |
| Ports.SurvivorSafeExactlyWhen | internal/scheduler/process.go:50-86 | no run, or no run that spells ids as configured, kills a survivor's server by a port clean-up, if and only if nothing such a run can launch beside it uses its port |
| Ports.PinnedWhenAccepted | internal/config/validate.go:46-57 | in an accepted configuration that is the case exactly when no coding model uses the survivor's port and, unless requests spell ids as configured, the survivor declares a GPU |
| Ports.SpelledApart | internal/config/validate.go:62-68 | two background models at addresses of one port, however spelled and not on one GPU: some run kills one server to launch the other; the validator sees one origin only if they are spelled alike |
| Ports.SpellingsSlipThrough | internal/config/validate.go:62-68 | members at http://127.0.0.1:8080/health and http://localhost:8080/health pass every validator, and some run kills one server for the other |
| Aliases.SecondSlotExactlyWhen | internal/config/scheduling.go:102-111 | a model gets a slot under a spelling of its id that has none, and the request is granted, exactly when no switch is under way, it is not backing off, and it is a coding model or passes the guard and nobody resident holds its card |
| Aliases.SecondSlotKills | proxy_backend.go:71-103 | for a GPU-less background model that runs and listens under its own id, that kills its server |
| Aliases.DoubledAtStart | internal/scheduler/switching.go:42-75 | every resident startup member with a GPU and a command comes to run twice on its card in some run |
| Aliases.DoubledByRecovery | internal/scheduler/reconcile.go:88-98 | also long after the start, by a recovery from a coding model that failed to start |
| Aliases.GPUExclusiveExactlyWhen | internal/scheduler/scheduler.go:411-455 | whatever ids are asked for no two slots ever run on one card, if and only if no resident startup member declares a GPU and has a command |
| Aliases.OriginsExclusiveExactlyWhen | internal/config/validate.go:79-103 | whatever ids are asked for no two running background slots share an origin, if and only if every background model with a command and an origin declares a GPU and is no resident startup member |
| Scheduler.Channel.Close | internal/scheduler/switching.go:332-335 | a channel is closed at most once |
| Scheduler.Scheduler.MarkSlotReady | internal/scheduler/switching.go:309-336 | in place: takes over the listening server, closes the channel unless closed, clears the failures, anchors the idle clock; the new state is exactly the machine's |
| Scheduler.Scheduler.MarkAsleep | internal/scheduler/process.go:205-209 | in place: the first critical section of a suspension, flags only |
| Scheduler.Scheduler.StowSlot | internal/scheduler/process.go:210-226 | in place: the second one, after the kill: no process, a fresh open channel, no failures, the flags as they are by then |
| Scheduler.Scheduler.SuspendSlot | internal/scheduler/process.go:204-227 | in place, when nothing comes between the two: stops the process, marks the slot asleep, gives it a fresh open channel, clears the failures |
| Scheduler.Scheduler.ReapCommand | internal/scheduler/process.go:145-177 | in place: adopts a detached server, or records the exit and, unless asleep, the failure |
| Scheduler.Scheduler.BookFail | internal/scheduler/scheduler.go:529-545 | counts the failure and from the second on sets the retry time by the doubling loop |
| Scheduler.Scheduler.FreeOccupiedPort | internal/scheduler/switching.go:163-192 | kills exactly the listening servers of other running slots on that port |
| Scheduler.Scheduler.FindOwner | internal/scheduler/scheduler.go:416-428 | the scan over the slot table in any order finds an owner of the card exactly when there is one |
| Scheduler.Scheduler.AcquireGPU | internal/scheduler/scheduler.go:411-455 | evicts the owner the scan met, refuses when it is resident, and changes nothing then |
| Scheduler.Scheduler.LaunchSlot | internal/scheduler/switching.go:206-247 | in place: frees the port, then a new slot with a new channel and, if the command started, a new process |
| Scheduler.Scheduler.RestartMember | internal/scheduler/reconcile.go:190-256 | in place: a stopped expected background member outside its window is started again behind the same channel, once its card is free |
| Scheduler.Scheduler.StopEverything | internal/scheduler/process.go:57-86 | keeps exactly the survivors' slots, untouched, and stops every other process |
| Scheduler.Scheduler.Switch | internal/scheduler/switching.go:24-106 | stop, launch each target in turn, register: the loop computes the machine's switch |
| Scheduler.Scheduler.SwitchToGroup | internal/scheduler/reconcile.go:66-73 | the switch to the startup set in whatever order it is listed |
| Scheduler.Scheduler.FinishSwitch | internal/scheduler/switching.go:125-153 | marks the targets whose probes succeeded and clears the switch |
| Scheduler.Scheduler.PreemptLowerPriority | internal/scheduler/switching.go:266-288 | a coding request cancels the registered switch if that is a background one or one to another coding model; nothing else cancels, and nothing else changes |
| Scheduler.Scheduler.CodingLocked | internal/scheduler/scheduler.go:239-254 | in place, what a coding request does once it holds switchMu, however long it waited |
| Scheduler.Scheduler.OnDemandLocked | internal/scheduler/scheduler.go:351-402 | likewise for an on-demand request |
| Scheduler.Scheduler.GroupLocked | internal/scheduler/scheduler.go:306-320 | likewise for a request that switches the startup set in |
| Scheduler.Scheduler.EnsureCodingModel | internal/scheduler/scheduler.go:216-253 | the reply and the new state are the machine's, and a promised channel is the model's own |
| Scheduler.Scheduler.EnsureOnDemandModel | internal/scheduler/scheduler.go:328-403 | likewise for a background model outside the startup set |
| Scheduler.Scheduler.EnsureBackgroundModel | internal/scheduler/scheduler.go:262-321 | likewise for any background model: member, whole-group switch, lease or on-demand branch; what `Outcomes.ReplyExactlyWhen` says of the machine's reply |
| Scheduler.Scheduler.Ask | proxy_backend.go:89-103 | a request, from the touch through the guard to the reply |
| Scheduler.Scheduler.AskAsleep | internal/scheduler/scheduler.go:262-321 | on the heap: a request for a sleeping or absent model is promised the open channel of its own slot, or none |
| Scheduler.Scheduler.VisitSlot | internal/scheduler/reconcile.go:126-185 | in place, one pass of the probe loop over a slot: what `Probes.VisitExactlyWhen` says of the machine's |
| Scheduler.Scheduler.RecoverCoding | internal/scheduler/reconcile.go:88-108 | switches the startup set in, or clears the coding model when there is none |
| Scheduler.Scheduler.CodingProcRunning | internal/scheduler/scheduler.go:570-580 | the loop over the slots decides whether a coding process runs |
| Scheduler.Scheduler.ModelEnter | internal/scheduler/scheduler.go:473-477 | counts one more request in flight for the model, and changes nothing else |
| Scheduler.Scheduler.ModelLeave | internal/scheduler/scheduler.go:480-486 | counts one fewer, never below zero, and changes nothing else |
| Scheduler.Scheduler.Perform | internal/scheduler/reconcile.go:19-180 | any event makes exactly the machine's step, enabled whenever the environment allows it |
| Scheduler.Scheduler.Step | internal/scheduler/reconcile.go:19-180 | the object's history stays a legal run of the machine, so its theorems hold of the object |
| Config.DefaultBackgroundGroup | internal/config/scheduling.go:136-148 | lists the startup set, each member once, for any map order |
| Validate.ValidateScheduling | internal/config/scheduling.go:239-309 | in every map order accepts exactly the configurations whose entries are well formed, whose startup set declares distinct GPUs and whose resident GPUs are private |
| Validate.ValidatePortCollisions | internal/config/validate.go:58-118 | in every map order accepts exactly when background entries of one origin share a non-empty GPU with neither resident, and no backend shares an origin with an entry |
| Validate.LaterAtOrigin | internal/config/validate.go:92-103 | comparing with the first claim of an origin is comparing with every entry seen |
| Validate.ValidateModelIDs | internal/config/validate.go:16-45 | accepts exactly when declared ids are unique across backends and scheduling and none is the reserved one |
| Validate.UntrimmedKeyUnreachable | internal/config/scheduling.go:102-111 | an accepted id with edge white space is found by no lookup |
| Balancer.CrossTransitive | internal/balancer/balancer.go:229-240 | comparing loads per weight by cross-multiplication is transitive |
| Balancer.Balancer.BestRatio | internal/balancer/balancer.go:231-240 | in any map order finds the least in-flight to weight ratio among eligible positive weights, as that order makes it, and -1 exactly when there is none |
| Balancer.TiedIsLightest | internal/balancer/balancer.go:255-268 | with weights of at least 1 the tied set is exactly the eligible members of least load per weight, whichever the ratio came from |
| Balancer.OrderFreeExactlyWhen | internal/balancer/balancer.go:231-268 | the tied set is the same in every visiting order of the pool, if and only if there are not two lightest members, one of weight 1 and one of another, and an eligible one without a positive weight that carries the load of the first; weights of at least 1 rule that out |
| Balancer.ZeroWeightDependsOnOrder | internal/balancer/balancer.go:255-268 | idle members of weight 1, 2 and 0 are such a pool |
| Balancer.Balancer.SelectLeastLoaded | internal/balancer/balancer.go:226-300 | finds a member exactly when an eligible one exists and the pool has a balancer; it carries the least load per weight, or without a positive weight the least load; among those the first the rotation names within one cycle (the sum of the weights, at least one name per member), or else the first by name |
| Balancer.ChosenIsUnique | internal/balancer/balancer.go:277-299 | the rotation and the names alone settle which tied member is chosen |
| Balancer.Balancer.SelectFromTagExcluding | internal/balancer/balancer.go:393-397 | finds an untried member of the tag exactly when there is one, and the least loaded of those |
| Balancer.Balancer.SelectExcluding | internal/balancer/balancer.go:385-389 | likewise over the whole pool |
| Balancer.Balancer.UpdateBalancer | internal/balancer/balancer.go:43-86 | rebuilds the pool and its indexes and keeps exactly the counters of the members that stay |
| Balancer.RotationDecides | internal/balancer/balancer.go:270-286 | in whatever order the weights are added up: a tied name among that many first names of the rotation, with nothing tied and no gap before it, is the one chosen |
| Balancer.LastNameWins | internal/balancer/balancer.go:43-72 | the last backend of a name stands for it in the pool |
| Balancer.LastModelWins | internal/balancer/balancer.go:43-72 | and the last one that declares a model id is the one it routes to |
| Balancer.ModelRouting | internal/balancer/balancer.go:328-336 | with unique ids and names a model id is routed to the one backend that declares it, and to nothing else |
| Accounting.CountsBounded | internal/balancer/balancer.go:73-82 | over every interleaving of forwards and rebuilds counters stay within the pool and between zero and the forwards under way |
| Accounting.CountExactExactlyWhen | internal/balancer/balancer.go:73-82 | along every log a node's counter equals the forwards under way in every state, if and only if in every state the node is in the pool or nothing is under way to it |
| Accounting.RejoinStartsAtZero | internal/balancer/balancer.go:73-82 | a node that comes back starts at zero, which is exact if and only if nothing is under way to it |
| Accounting.RejoinUndercounts | internal/balancer/balancer.go:73-82 | any node removed with a forward under way and brought back is under-counted |
| Failover.Server.SelectBackend | proxy_backend.go:13-66 | a request that names a model goes where the next row says; any other to a lightest member of its tag or pool, and to nobody exactly when there is none or the address picked is not one of HTTP |
| Failover.Server.SelectSpecific | proxy_backend.go:70-83 | to the local process once it is ready, else to the backend that declares the model, else to nobody |
| Failover.Server.NextBackend | proxy_backend.go:26-45 | finds an untried reachable node exactly when one is left, and under positive weights a lightest one |
| Failover.Server.Forward | proxy.go:118-221 | the retry loop ends, never tries a node twice or outside the pool, goes after each failure to a lightest node not tried yet, serves only on a 200, and gives up only when every reachable node failed |
| Failover.Server.Serve | proxy.go:78-112 | during every attempt one more request is active, registered, counted for the local model behind it and for the node tried, and for no other; all of that ends as it began on every exit |
| Failover.Server.HandleProxy | proxy.go:64-221 | all of it for a whole request: rejected exactly when nobody is chosen, sent where the choice says and on in that order, counted meanwhile as above, failed only after every destination failed and with the last status, every counter as it began |
| Dsn.SplitDSNFields | internal/db/database.go:266-288 | the scanning loop computes the fields |
| Dsn.SplitJoin | internal/db/database.go:266-288 | splitting undoes joining for fields whose blanks are quoted |
| Dsn.ParsePostgresKV | internal/db/database.go:239-263 | the parsing loop, its failure on a field without '=' and its use of the URL conversion |
| Dsn.PgAdminDSN | internal/db/database.go:178-195 | prints the settings with the maintenance database in place of the named one, in whatever key order, and fails exactly when parsing does |
| Dsn.QuotedExactlyWhen | internal/db/database.go:186-195 | a value is written between quotes, with its quotes doubled, if and only if it holds a blank, a quote or a backslash |
| Dsn.ParsesExactlyWhen | internal/db/database.go:251-262 | text parses exactly when every field has an equals sign |
| Dsn.LastFieldWins | internal/db/database.go:251-262 | the last field of a key gives its value and touches no other |
| Dsn.PrintThenParse | internal/db/database.go:178-263 | for clean keys and no "://" parsing what was printed in any key order gives every value back, unquoted ones without their edge white space |
| Dsn.RoundTrip | internal/db/database.go:178-263 | the round trip is exact if and only if every unquoted value has no edge white space |
| Dsn.QuotedKeptExactlyWhen | internal/db/database.go:178-263 | from connection string to connection string a quoted setting keeps its value if and only if the value needs its quotes or has no white space at its edges |
| Dsn.EdgeTabIsLost | internal/db/database.go:178-263 | password='<tab>x' becomes password=<tab>x in the administrative string, which names the password x |
| Dsn.AdminNamesPostgres | internal/db/database.go:165-195 | the administrative string names the maintenance database and keeps every other setting |
| ProcTree.ProcessChildren | internal/scheduler/procresolve.go:178-197 | the scan finds exactly the children |
| ProcTree.CollectTree | internal/scheduler/procresolve.go:201-216 | over any table, cyclic ones included, the search ends with exactly the root and its descendants, each once, parents first |
| ProcTree.KillTree | internal/scheduler/procresolve.go:222-242 | a leader's group is signalled as one; otherwise every process of the tree once, root last, parents before children among the rest; a dead process gets nothing |
| GpuWait.LowIsMinimum | internal/scheduler/gpuwait.go:76-82 | the value kept is a lower bound of baseline and readings, and one of them |
| GpuWait.AlwaysSettles | internal/scheduler/gpuwait.go:50-99 | for any readings some poll among the first 6144 settles the wait |
| GpuWait.BoundIsExact | internal/scheduler/gpuwait.go:50-99 | the slowest release settles at poll 6144 and not before |
| GpuWait.QuietMeansStable | internal/scheduler/gpuwait.go:76-82 | counting readings since the last drop is comparing the minimum with that of three readings before |
| GpuWait.WaitForGPURelease | internal/scheduler/gpuwait.go:50-99 | at most 6144 polls; the value kept is the minimum of baseline and readings; released means at least 512 MiB came back; it stops at the first poll that settles, fails, is cancelled or late |
| Text.TrimSpaceTrims | internal/config/scheduling.go:102-111 | trimming takes white space off both edges and nothing else |

## Left out

- Ensure*, Start, Loop: the wait for readiness is not a computation here; its outcome arrives as the `Ready`, `Finish` and `Exited` events, and the timeouts, drains and polling intervals are not modelled.
- Races.SoundExactlyWhen: a switch and a launch are one step each; what happens between stopping the old processes and registering the new switch is not interleaved.  `Start`, `Loop` and `reconcile` are not interleaved with a caller that holds `switchMu`.
- Races.ChannelsExactlyWhen: a late mark that meets a slot launched anew under the same id is sound here and marks it ready before its server answers.
- Requests.NoStaleReady: stated for the atomic machine; during a kill `Hazards.StaleReadyDuringKill` applies.
- Url.ReadOff: percent escapes and characters no host may hold are not modelled.
- Machine.Stopped: a detached server that has not begun to listen when its wrapper exits is taken for dead; in the code it may still come up and be adopted by a later visit.
- Reapers.ReportedExactlyWhen: the early exit is the only thing that comes between starting a command and registering its slot.
- Failover.Server.HandleProxy: the readiness wait of a scheduled model and the routing rule's header match arrive as inputs; response copying, records and broadcasts are not modelled.
- Balancer.Balancer.SelectLeastLoaded: the rotation of the strategy library is an arbitrary sequence of names.
- Dsn.ParsePostgresKV: the conversion of URL-form strings is a parameter.
- ProcTree.CollectTree: the process table is one fixed snapshot; processes that appear or change parent during the walk are not modelled.
- Ready implies running is not claimed: the death of an adopted server does not clear the flag until the next probe.
- The manual switch endpoint (router_scheduler.go:36-75) makes the same guarded request as the proxy and is not a separate event.
- `Shutdown`, log files, load-time display and the snapshot for the panel.
- Pool synchronisation with ready local models and configuration reload.
- Reading `/proc`, sockets and `nvidia-smi`, HTTP handling, storage, statistics and the web interface.
