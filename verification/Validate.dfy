/** The configuration validators: single passes over maps in any order, each proved to
    decide its pairwise specification. */
module Validate {
  import opened Text
  import opened Config

  // validateScheduling.

  /** The per-entry checks, in source order. */
  method EntryFault(e: Process) returns (bad: bool)
    ensures bad <==> !EntryAccepted(e)
  {
    if e.mode.Unknown? {
      return true;
    }
    if e.command != "" && TrimSpace(e.readinessURL) == "" {
      return true;
    }
    if e.autostart && e.mode != Background {
      return true;
    }
    if e.resident && e.mode != Background {
      return true;
    }
    if e.noPool && e.mode != Background {
      return true;
    }
    if e.sleepTimeout > 0 {
      if e.mode != Background {
        return true;
      }
      if !e.noPool {
        return true;
      }
    }
    return false;
  }

  method EntriesAccepted(c: Scheduling) returns (ok: bool)
    ensures ok <==> forall id :: id in c.models ==> EntryAccepted(c.models[id])
  {
    var todo := c.models.Keys;
    while todo != {}
      invariant todo <= c.models.Keys
      invariant forall id :: id in c.models && id !in todo ==> EntryAccepted(c.models[id])
      decreases todo
    {
      var id :| id in todo;
      var bad := EntryFault(c.models[id]);
      if bad {
        return false;
      }
      todo := todo - {id};
    }
    return true;
  }

  /** The members listed in group declare different cards. */
  ghost predicate CardsDistinct(c: Scheduling, group: seq<string>) {
    forall i, j | 0 <= i < j < |group| :: Card(c, group[i]) != "" ==> Card(c, group[i]) != Card(c, group[j])
  }

  function Card(c: Scheduling, id: string): string {
    if id in c.models then c.models[id].gpu else ""
  }

  lemma GroupByIndex(c: Scheduling, group: seq<string>)
    requires IsGroup(c, group)
    ensures GroupGPUsDistinct(c) <==> CardsDistinct(c, group)
  {
    if GroupGPUsDistinct(c) {
      forall i, j | 0 <= i < j < |group| && Card(c, group[i]) != "" ensures Card(c, group[i]) != Card(c, group[j]) {
        assert group[i] in group && group[j] in group;
      }
    }
    if CardsDistinct(c, group) {
      forall a, b | InGroup(c, a) && InGroup(c, b) && a != b && c.models[a].gpu != ""
        ensures c.models[a].gpu != c.models[b].gpu
      {
        var i :| 0 <= i < |group| && group[i] == a;
        var j :| 0 <= j < |group| && group[j] == b;
        assert Card(c, group[i]) == c.models[a].gpu && Card(c, group[j]) == c.models[b].gpu;
      }
    }
  }

  /** The startup set's cards, first claim recorded. */
  method GroupGPUsAccepted(c: Scheduling) returns (ok: bool)
    ensures ok <==> GroupGPUsDistinct(c)
  {
    var group := DefaultBackgroundGroup(c);
    GroupByIndex(c, group);
    ok := CardsAccepted(c, group);
  }

  method CardsAccepted(c: Scheduling, group: seq<string>) returns (ok: bool)
    ensures ok <==> CardsDistinct(c, group)
  {
    var seen: map<string, string> := map[];
    for i := 0 to |group|
      invariant forall g :: g in seen <==> g != "" && exists k | 0 <= k < i :: Card(c, group[k]) == g
      invariant forall j, k | 0 <= j < k < i :: Card(c, group[j]) != "" ==> Card(c, group[j]) != Card(c, group[k])
    {
      var g := Card(c, group[i]);
      if g != "" {
        if g in seen {
          return false;
        }
        seen := seen[g := group[i]];
      }
    }
    return true;
  }

  /** The cards of the resident models; None when two residents name one card. */
  method ResidentGPUs(c: Scheduling) returns (claims: Option<map<string, string>>)
    ensures claims == None ==> !ResidentGPUsPrivate(c)
    ensures claims.Some? ==>
      && (forall g :: g in claims.value ==> Claimed(c, claims.value[g], g))
      && forall id | id in c.models && c.models[id].resident && c.models[id].gpu != "" ::
           c.models[id].gpu in claims.value && claims.value[c.models[id].gpu] == id
  {
    var pinned: map<string, string>, todo := map[], c.models.Keys;
    while todo != {}
      invariant todo <= c.models.Keys
      invariant forall g :: g in pinned ==> Claimed(c, pinned[g], g) && pinned[g] !in todo
      invariant forall id | id in c.models && id !in todo && c.models[id].resident && c.models[id].gpu != "" ::
        c.models[id].gpu in pinned && pinned[c.models[id].gpu] == id
      decreases todo
    {
      var id :| id in todo;
      var e := c.models[id];
      if e.gpu != "" && e.resident {
        if e.gpu in pinned {
          assert Claimed(c, pinned[e.gpu], e.gpu) && pinned[e.gpu] != id;
          return None;
        }
        pinned := pinned[e.gpu := id];
      }
      todo := todo - {id};
    }
    return Some(pinned);
  }

  /** id is resident on card g. */
  ghost predicate Claimed(c: Scheduling, id: string, g: string) {
    id in c.models && c.models[id].resident && c.models[id].gpu == g && g != ""
  }

  method ResidentsAccepted(c: Scheduling) returns (ok: bool)
    ensures ok <==> ResidentGPUsPrivate(c)
  {
    var claims := ResidentGPUs(c);
    if claims == None {
      return false;
    }
    var pinned := claims.value;
    var todo := c.models.Keys;
    while todo != {}
      invariant todo <= c.models.Keys
      invariant forall id | id in c.models && id !in todo && c.models[id].gpu in pinned :: pinned[c.models[id].gpu] == id
      decreases todo
    {
      var id :| id in todo;
      var e := c.models[id];
      if e.gpu != "" && e.gpu in pinned && pinned[e.gpu] != id {
        assert Claimed(c, pinned[e.gpu], e.gpu);
        return false;
      }
      todo := todo - {id};
    }
    forall a, b | a in c.models && b in c.models && a != b && c.models[a].resident && c.models[a].gpu != ""
      ensures c.models[a].gpu != c.models[b].gpu
    {
      assert pinned[c.models[a].gpu] == a;
    }
    return true;
  }

  /** validateScheduling accepts exactly the configurations that satisfy the pairwise
      specification, whatever the order of the maps. */
  method ValidateScheduling(c: Scheduling) returns (ok: bool)
    ensures ok <==> SchedulingAccepted(c)
  {
    ok := EntriesAccepted(c);
    if ok {
      ok := GroupGPUsAccepted(c);
    }
    if ok {
      ok := ResidentsAccepted(c);
    }
  }

  // ValidatePortCollisions.

  /** An origin taken by a background entry, with what the first entry that took it declares. */
  datatype Claim = Claim(gpu: string, resident: bool)

  predicate Listening(c: Scheduling, id: string, o: string) {
    id in c.models && c.models[id].mode != Coding && c.models[id].origin == o && o != ""
  }

  predicate CodingAt(c: Scheduling, id: string, o: string) {
    id in c.models && c.models[id].mode == Coding && c.models[id].origin == o && o != ""
  }

  /** The claim stands for an entry that has been passed. */
  ghost predicate Stands(c: Scheduling, todo: set<string>, o: string, cl: Claim) {
    exists f :: Listening(c, f, o) && f !in todo && c.models[f].gpu == cl.gpu && c.models[f].resident == cl.resident
  }

  /** The entries outside todo: origins that have a claim, and are shared in the way the
      arbiter can serve. */
  ghost predicate Recorded(c: Scheduling, todo: set<string>, seen: map<string, Claim>) {
    && (forall o :: o in seen ==> Stands(c, todo, o, seen[o]))
    && (forall a, o | Listening(c, a, o) && a !in todo :: o in seen && seen[o].gpu == c.models[a].gpu)
    && (forall a, b, o | Listening(c, a, o) && Listening(c, b, o) && a != b && a !in todo && b !in todo ::
          Swappable(c.models[a], c.models[b]))
  }

  /** BackgroundOriginsAccepted, by origin. */
  lemma AcceptedByOrigin(c: Scheduling)
    ensures BackgroundOriginsAccepted(c) <==>
      forall a, b, o | Listening(c, a, o) && Listening(c, b, o) && a != b :: Swappable(c.models[a], c.models[b])
  {
    forall a | a in c.models && c.models[a].mode != Coding && c.models[a].origin != ""
      ensures Listening(c, a, c.models[a].origin)
    {
    }
  }

  /** An entry meets an origin nobody has claimed. */
  lemma FirstAtOrigin(c: Scheduling, todo: set<string>, seen: map<string, Claim>, id: string, o: string)
    requires Recorded(c, todo, seen) && id in todo && Listening(c, id, o) && o !in seen
    ensures Recorded(c, todo - {id}, seen[o := Claim(c.models[id].gpu, c.models[id].resident)])
  {
    var seen' := seen[o := Claim(c.models[id].gpu, c.models[id].resident)];
    forall x | x in seen' ensures Stands(c, todo - {id}, x, seen'[x]) {
      if x != o {
        var f :| Listening(c, f, x) && f !in todo && c.models[f].gpu == seen[x].gpu && c.models[f].resident == seen[x].resident;
        assert f !in todo - {id};
      }
    }
  }

  /** An entry meets a claimed origin: comparing it with the first claim is comparing it
      with every entry passed so far. */
  lemma LaterAtOrigin(c: Scheduling, todo: set<string>, seen: map<string, Claim>, id: string, o: string)
    requires Recorded(c, todo, seen) && id in todo && Listening(c, id, o) && o in seen
    ensures var e := c.models[id];
      if e.gpu != "" && e.gpu == seen[o].gpu && !seen[o].resident && !e.resident
      then Recorded(c, todo - {id}, seen)
      else !BackgroundOriginsAccepted(c)
  {
    var f :| Listening(c, f, o) && f !in todo && c.models[f].gpu == seen[o].gpu && c.models[f].resident == seen[o].resident;
    var e := c.models[id];
    if e.gpu != "" && e.gpu == seen[o].gpu && !seen[o].resident && !e.resident {
      forall x | x in seen ensures Stands(c, todo - {id}, x, seen[x]) {
        var g :| Listening(c, g, x) && g !in todo && c.models[g].gpu == seen[x].gpu && c.models[g].resident == seen[x].resident;
        assert g !in todo - {id};
      }
      forall b | Listening(c, b, o) && b != id && b !in todo ensures Swappable(c.models[b], e) && Swappable(e, c.models[b]) {
        assert b == f || Swappable(c.models[b], c.models[f]);
      }
    }
  }

  lemma SkipEntry(c: Scheduling, todo: set<string>, seen: map<string, Claim>, id: string)
    requires Recorded(c, todo, seen) && id in todo && forall o :: !Listening(c, id, o)
    ensures Recorded(c, todo - {id}, seen)
  {
    forall x | x in seen ensures Stands(c, todo - {id}, x, seen[x]) {
      var g :| Listening(c, g, x) && g !in todo && c.models[g].gpu == seen[x].gpu && c.models[g].resident == seen[x].resident;
      assert g !in todo - {id};
    }
  }

  /** The pass over the scheduling entries; None on a collision. */
  method ClaimOrigins(c: Scheduling) returns (claims: Option<(map<string, Claim>, map<string, string>)>)
    ensures claims.Some? <==> BackgroundOriginsAccepted(c)
    ensures claims.Some? ==>
      && (forall o :: o in claims.value.0 <==> exists id :: Listening(c, id, o))
      && (forall o :: o in claims.value.1 <==> exists id :: CodingAt(c, id, o))
  {
    var bgSeen: map<string, Claim>, codeOrigins: map<string, string>, todo := map[], map[], c.models.Keys;
    while todo != {}
      invariant todo <= c.models.Keys
      invariant Recorded(c, todo, bgSeen)
      invariant forall o :: o in codeOrigins ==> CodingAt(c, codeOrigins[o], o)
      invariant forall id, o :: CodingAt(c, id, o) && id !in todo ==> o in codeOrigins
      decreases todo
    {
      var id :| id in todo;
      var e := c.models[id];
      if e.mode == Coding {
        if e.origin != "" && e.origin !in codeOrigins {
          codeOrigins := codeOrigins[e.origin := id];
        }
        SkipEntry(c, todo, bgSeen, id);
      } else if e.origin == "" {
        SkipEntry(c, todo, bgSeen, id);
      } else if e.origin !in bgSeen {
        FirstAtOrigin(c, todo, bgSeen, id, e.origin);
        bgSeen := bgSeen[e.origin := Claim(e.gpu, e.resident)];
      } else {
        LaterAtOrigin(c, todo, bgSeen, id, e.origin);
        var claim := bgSeen[e.origin];
        if !(e.gpu != "" && e.gpu == claim.gpu && !claim.resident && !e.resident) {
          return None;
        }
      }
      todo := todo - {id};
    }
    AcceptedByOrigin(c);
    forall o ensures o in bgSeen <==> exists id :: Listening(c, id, o) {
      assert o in bgSeen ==> Stands(c, {}, o, bgSeen[o]);
    }
    return Some((bgSeen, codeOrigins));
  }

  /** No backend shares its origin with an entry of the scheduling section. */
  ghost predicate BackendOriginsFree(c: Scheduling, backends: seq<Backend>) {
    forall i | 0 <= i < |backends| :: OriginFree(c, backends[i].origin)
  }

  ghost predicate OriginFree(c: Scheduling, o: string) {
    o == "" || forall id :: id in c.models ==> c.models[id].origin != o
  }

  /** ValidatePortCollisions accepts exactly when any two background entries of one origin
      are swapped by the arbiter and no backend shares an origin with an entry. */
  method ValidatePortCollisions(c: Scheduling, backends: seq<Backend>) returns (ok: bool)
    ensures ok <==> BackgroundOriginsAccepted(c) && BackendOriginsFree(c, backends)
  {
    var claims := ClaimOrigins(c);
    if claims == None {
      return false;
    }
    var (bgSeen, codeOrigins) := claims.value;
    for i := 0 to |backends|
      invariant forall k | 0 <= k < i :: OriginFree(c, backends[k].origin)
    {
      var origin := backends[i].origin;
      OriginFreeWhen(c, origin);
      if origin != "" {
        if origin in bgSeen {
          return false;
        }
      }
      if origin in codeOrigins {
        return false;
      }
    }
    return true;
  }

  lemma OriginFreeWhen(c: Scheduling, o: string)
    ensures OriginFree(c, o) <==> !(exists id :: Listening(c, id, o)) && !(exists id :: CodingAt(c, id, o))
  {
    if !OriginFree(c, o) {
      var id :| id in c.models && c.models[id].origin == o;
      assert Listening(c, id, o) || CodingAt(c, id, o);
    }
  }

  // ValidateModelIDs.

  const RESERVED_ID := "llama_proxy"

  /** Every declared model id is unique across backends and scheduling, and none is the
      reserved one.  Backend ids are trimmed first, scheduling ids are not. */
  ghost predicate ModelIDsAccepted(c: Scheduling, backends: seq<Backend>) {
    && (forall i | 0 <= i < |backends| :: BackendID(backends[i]) != RESERVED_ID)
    && RESERVED_ID !in c.models
    && BackendIDsDistinct(backends)
    && (forall i | 0 <= i < |backends| && BackendID(backends[i]) != "" :: BackendID(backends[i]) !in c.models)
  }

  /** m is the declared id of one of the backends. */
  ghost predicate Declared(backends: seq<Backend>, m: string) {
    m != "" && exists k | 0 <= k < |backends| :: BackendID(backends[k]) == m
  }

  method BackendIDs(backends: seq<Backend>) returns (ids: Option<set<string>>)
    ensures ids.Some? <==>
      BackendIDsDistinct(backends) && forall k | 0 <= k < |backends| :: BackendID(backends[k]) != RESERVED_ID
    ensures ids.Some? ==> forall m :: m in ids.value <==> Declared(backends, m)
  {
    var seen: set<string> := {};
    for i := 0 to |backends|
      invariant forall k | 0 <= k < i :: BackendID(backends[k]) != RESERVED_ID
      invariant BackendIDsDistinct(backends[..i])
      invariant forall m :: m in seen <==> Declared(backends[..i], m)
    {
      var m := BackendID(backends[i]);
      assert backends[..i + 1] == backends[..i] + [backends[i]];
      if m != "" {
        if m == RESERVED_ID {
          return None;
        }
        if m in seen {
          var k :| 0 <= k < i && BackendID(backends[k]) == m;
          return None;
        }
        seen := seen + {m};
        assert BackendID(backends[..i + 1][i]) == m;
      }
    }
    assert backends[..|backends|] == backends;
    return Some(seen);
  }

  method ValidateModelIDs(c: Scheduling, backends: seq<Backend>) returns (ok: bool)
    ensures ok <==> ModelIDsAccepted(c, backends)
  {
    var found := BackendIDs(backends);
    if found == None {
      return false;
    }
    var models := found.value;
    var seen, todo := models, c.models.Keys;
    while todo != {}
      invariant todo <= c.models.Keys
      invariant seen == models + (c.models.Keys - todo)
      invariant RESERVED_ID !in c.models.Keys - todo
      invariant forall m :: m in models && m in c.models ==> m in todo
      decreases todo
    {
      var id :| id in todo;
      if id == RESERVED_ID {
        return false;
      }
      if id in seen {
        assert Declared(backends, id);
        return false;
      }
      seen := seen + {id};
      todo := todo - {id};
    }
    forall i | 0 <= i < |backends| && BackendID(backends[i]) != "" ensures BackendID(backends[i]) !in c.models {
      assert Declared(backends, BackendID(backends[i]));
    }
    return true;
  }

  /** An accepted id written with edge white space cannot be asked for: lookups trim first,
      and find another entry or none. */
  lemma UntrimmedKeyUnreachable(c: Scheduling, key: string, id: string)
    requires key in c.models && TrimSpace(key) != key
    ensures TrimSpace(id) != key
  {
    TrimSpaceTrims(id);
    TrimSpaceTrims(key);
  }
}
