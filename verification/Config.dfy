/** The scheduling section of the configuration (internal/config/scheduling.go). */
module Config {
  import opened Text

  /** A mode string: the two known modes, or anything else (blank included). */
  datatype Mode = Coding | Background | Unknown(text: string)

  /** One model entry.  origin and port are what parsing readinessURL yields
      ("" and 0 when it does not parse). */
  datatype Process = Process(
    command: string, mode: Mode, readinessURL: string, origin: string, port: nat,
    autostart: bool, resident: bool, noPool: bool, sleepTimeout: int, gpu: string)

  /** One pool backend, as configured or contributed by a local model.  origin is what
      parsing url yields ("" when it does not parse). */
  datatype Backend = Backend(name: string, url: string, origin: string, model: string, weight: int, tags: seq<string>)

  /** The tags that count: blank ones are dropped, the others trimmed. */
  function EffectiveTags(b: Backend): set<string> {
    set t | t in b.tags && TrimSpace(t) != "" :: TrimSpace(t)
  }

  /** The model id a backend declares, "" for none. */
  function BackendID(b: Backend): string { TrimSpace(b.model) }

  ghost predicate BackendIDsDistinct(backends: seq<Backend>) {
    forall i, j | 0 <= i < j < |backends| && BackendID(backends[i]) != "" ::
      BackendID(backends[i]) != BackendID(backends[j])
  }

  datatype Scheduling = Scheduling(models: map<string, Process>, lease: int)

  function Entry(c: Scheduling, id: string): Option<Process> {
    var key := TrimSpace(id);
    if key in c.models then Some(c.models[key]) else None
  }

  /** id names an entry, perhaps only once edge white space is taken off. */
  predicate Known(c: Scheduling, id: string) { TrimSpace(id) in c.models }

  const BLANK := Process("", Unknown(""), "", "", 0, false, false, false, 0, "")

  /** The entry of id; a blank entry stands for "not configured", and every test the
      scheduler makes on a missing entry comes out the same on the blank one. */
  function At(c: Scheduling, id: string): Process {
    match Entry(c, id)
    case Some(e) => e
    case None => BLANK
  }

  /** Membership in the startup set. */
  predicate InGroup(c: Scheduling, id: string) {
    id in c.models && c.models[id].mode == Background && c.models[id].autostart
  }

  /** ids lists the startup set, each member once. */
  ghost predicate IsGroup(c: Scheduling, ids: seq<string>) {
    && (forall id :: id in ids <==> InGroup(c, id))
    && (forall i, j :: 0 <= i < j < |ids| ==> ids[i] != ids[j])
  }

  /** Every configured id is written without edge white space. */
  ghost predicate KeysTrimmed(c: Scheduling) {
    forall id :: id in c.models ==> TrimSpace(id) == id
  }

  /** DefaultBackgroundGroup, with the map visited in any order. */
  method DefaultBackgroundGroup(c: Scheduling) returns (out: seq<string>)
    ensures IsGroup(c, out)
  {
    out := [];
    var todo := c.models.Keys;
    while todo != {}
      invariant todo <= c.models.Keys
      invariant forall id :: id in out <==> InGroup(c, id) && id !in todo
      invariant forall i, j :: 0 <= i < j < |out| ==> out[i] != out[j]
      decreases todo
    {
      var id :| id in todo;
      var e := c.models[id];
      if e.mode == Background && e.autostart {
        out := out + [id];
      }
      todo := todo - {id};
    }
  }

  // What the validators promise, stated pairwise over the entries.

  /** The checks validateScheduling makes on one entry. */
  ghost predicate EntryAccepted(e: Process) {
    && e.mode in {Coding, Background}
    && (e.command != "" ==> TrimSpace(e.readinessURL) != "")
    && (e.autostart || e.resident || e.noPool ==> e.mode == Background)
    && (e.sleepTimeout > 0 ==> e.mode == Background && e.noPool)
  }

  /** No two members of the startup set declare one GPU. */
  ghost predicate GroupGPUsDistinct(c: Scheduling) {
    forall a, b | InGroup(c, a) && InGroup(c, b) && a != b && c.models[a].gpu != "" ::
      c.models[a].gpu != c.models[b].gpu
  }

  /** Nobody shares the GPU of a resident model. */
  ghost predicate ResidentGPUsPrivate(c: Scheduling) {
    forall a, b | a in c.models && b in c.models && a != b && c.models[a].resident && c.models[a].gpu != "" ::
      c.models[a].gpu != c.models[b].gpu
  }

  ghost predicate SchedulingAccepted(c: Scheduling) {
    && (forall id :: id in c.models ==> EntryAccepted(c.models[id]))
    && GroupGPUsDistinct(c)
    && ResidentGPUsPrivate(c)
  }

  /** Two models of one card that the arbiter swaps: they never run side by side. */
  predicate Swappable(a: Process, b: Process) {
    a.gpu != "" && a.gpu == b.gpu && !a.resident && !b.resident
  }

  /** Two background entries with one origin must be swapped by the GPU arbiter. */
  ghost predicate BackgroundOriginsAccepted(c: Scheduling) {
    forall a, b |
        && a in c.models && b in c.models && a != b
        && c.models[a].mode != Coding && c.models[b].mode != Coding
        && c.models[a].origin != "" && c.models[a].origin == c.models[b].origin ::
      Swappable(c.models[a], c.models[b])
  }
}
