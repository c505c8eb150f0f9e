/** Forwarding one request with failover (proxy.go, proxy_backend.go). */
module Failover {
  import opened Text
  import opened Config
  import opened Balancer
  import Accounting

  const PROXY_MODEL_ID := "llm_proxy"
  const OK_STATUS := 200
  const BAD_GATEWAY := 502
  const LOCAL_PREFIX := "local-"

  /** A forwarding target.  node is its name in the balancer; schedModel is the local model
      behind it, "" for a pool backend. */
  datatype Candidate = Candidate(url: string, node: string, schedModel: string)

  /** Where the next candidate comes from when one fails. */
  datatype Next = NoFailover | FromPool | FromTag(tag: string)

  /** What came of one forward: the request could not be built, the connection failed, or
      the backend answered. */
  datatype Answer = Unbuilt | Broken | Status(code: int)

  datatype Attempt = Attempt(node: string, answer: Answer)

  datatype Reply = Rejected | InternalError | Failed(code: int, attempts: seq<Attempt>) | Served(node: string)

  predicate ValidURL(raw: string) {
    TrimSpace(raw) != "" && ("http://" <= raw || "https://" <= raw)
  }

  /** An address with one of the two prefixes is not blank. */
  lemma HttpIsValid(raw: string)
    ensures ValidURL(raw) <==> "http://" <= raw || "https://" <= raw
  {
    if "http://" <= raw || "https://" <= raw {
      assert raw[0] == 'h' && !IsSpace(raw[0]);
      TrimSpaceTrims(raw);
    }
  }

  /** strings.TrimRight(url, "/"). */
  function TrimSlash(url: string): (r: string)
    ensures r <= url && (r != "" ==> r[|r| - 1] != '/') && forall i | |r| <= i < |url| :: url[i] == '/'
  {
    if url != "" && url[|url| - 1] == '/' then TrimSlash(url[..|url| - 1]) else url
  }

  function CandidateOf(b: Backend): Candidate { Candidate(TrimSlash(b.url), b.name, "") }

  /** The request names a model. */
  predicate Direct(model: string) { model != "" && model != PROXY_MODEL_ID }

  /** Where a request that names a model goes: to the local process, once that is ready, or
      to the backend that declares the model; nowhere if there is neither. */
  ghost predicate GoesTo(backends: map<string, Backend>, models: map<string, string>, model: string,
                         scheduled: Option<Option<string>>, first: Option<Candidate>) {
    match scheduled
    case Some(None) => first == None
    case Some(Some(base)) =>
      first.Some? && first.value.node == LOCAL_PREFIX + model && first.value.schedModel == model
      && first.value.url == TrimSlash(base)
    case None =>
      && (first.Some? <==> TrimSpace(model) in models && models[TrimSpace(model)] in backends)
      && (first.Some? ==>
            first.value.node == models[TrimSpace(model)] && first.value.schedModel == ""
            && first.value.url == TrimSlash(backends[first.value.node].url))
  }

  /** The nodes a load-balanced request may go to: the pool, or the tag its rule names. */
  ghost function Destinations(backends: map<string, Backend>, rule: Option<string>): set<string> {
    match rule
    case None => backends.Keys
    case Some(tag) => set n | n in backends && tag in EffectiveTags(backends[n])
  }

  /** What the balancer picks among group: somebody exactly when there is anybody, under
      positive weights one of the lightest. */
  ghost predicate Picked(backends: map<string, Backend>, inflight: map<string, int>, group: set<string>,
                         spin: nat -> string, b: Option<Backend>) {
    && (b == None <==> group == {})
    && (b.Some? ==>
          && b.value.name in group && b.value.name in backends && backends[b.value.name] == b.value
          && (Weighted(backends, group) ==> Chosen(Lightest(backends, inflight, group), spin, Cycle(backends), b.value.name)))
  }

  /** A pick is forwarded to only if its address is one of HTTP. */
  ghost predicate Offered(b: Option<Backend>, first: Option<Candidate>) {
    && (first.Some? <==> b.Some? && ("http://" <= TrimSlash(b.value.url) || "https://" <= TrimSlash(b.value.url)))
    && (first.Some? ==>
          first.value.node == b.value.name && first.value.schedModel == "" && first.value.url == TrimSlash(b.value.url))
  }

  /** Under positive weights n carries the least load per unit of weight in group. */
  ghost predicate Light(backends: map<string, Backend>, inflight: map<string, int>, group: set<string>, n: string) {
    Weighted(backends, group) ==> n in Lightest(backends, inflight, group)
  }

  /** The nodes a request may be forwarded to. */
  ghost function Reachable(backends: map<string, Backend>, first: Candidate, next: Next): set<string> {
    match next
    case NoFailover => {first.node}
    case FromPool => backends.Keys
    case FromTag(tag) => set n | n in backends && tag in EffectiveTags(backends[n])
  }

  ghost predicate SameLoads(a: map<string, int>, b: map<string, int>) {
    forall n :: Load(a, n) == Load(b, n)
  }

  function Tried(attempts: seq<Attempt>): set<string> {
    set a | a in attempts :: a.node
  }

  /** The attempts begin with first, and each later one went to a lightest node of those
      not tried before it. */
  ghost predicate InOrder(backends: map<string, Backend>, inflight: map<string, int>, reach: set<string>,
                          first: string, nodes: seq<string>) {
    && (nodes != [] ==> nodes[0] == first)
    && forall i | 0 < i < |nodes| :: Light(backends, inflight, reach - (set n | n in nodes[..i]), nodes[i])
  }

  function Nodes(attempts: seq<Attempt>): (nodes: seq<string>)
    ensures |nodes| == |attempts| && forall i | 0 <= i < |nodes| :: nodes[i] == attempts[i].node
  {
    seq(|attempts|, i requires 0 <= i < |attempts| => attempts[i].node)
  }

  /** The nodes a request was sent to, the one that served it included. */
  function Route(reply: Reply, attempts: seq<Attempt>): seq<string> {
    Nodes(attempts) + if reply.Served? then [reply.node] else []
  }

  /** Every attempt failed, on a node of its own, as the environment answered. */
  ghost predicate AllFailed(attempts: seq<Attempt>, answer: nat -> Answer) {
    && (forall i | 0 <= i < |attempts| ::
          attempts[i].answer == answer(i) && (answer(i) == Broken || (answer(i).Status? && answer(i).code != OK_STATUS)))
    && forall i, j | 0 <= i < j < |attempts| :: attempts[i].node != attempts[j].node
  }

  function OneMore(counts: map<string, int>, id: string): map<string, int> {
    counts[id := Load(counts, id) + 1]
  }

  function OneLess(counts: map<string, int>, id: string): map<string, int> {
    if Load(counts, id) > 0 then counts[id := Load(counts, id) - 1] else counts
  }

  /** What the counters say at one moment: requests under way, their registry, the counts
      per local model and per node. */
  datatype Snapshot = Snapshot(active: int, registry: set<string>, models: map<string, int>, nodes: map<string, int>)

  /** How s differs from the counters before the request id: one more request, registered,
      counted for the local model behind it and for the node it is sent to, once each. */
  ghost predicate UnderWay(s: Snapshot, before: Snapshot, id: string, model: string, pool: set<string>, node: string) {
    && s.active == before.active + 1 && s.registry == before.registry + {id}
    && (forall m :: Load(s.models, m) == Load(before.models, m) + if m == model && m != "" then 1 else 0)
    && (forall n :: Load(s.nodes, n) == Load(before.nodes, n) + if n == node && n != "" && n in pool then 1 else 0)
  }

  /** The status reported once everything failed. */
  function FailureCode(attempts: seq<Attempt>): int
    requires attempts != []
  {
    match attempts[|attempts| - 1].answer
    case Status(c) => c
    case _ => BAD_GATEWAY
  }

  lemma OneMoreOneLess(counts: map<string, int>, id: string)
    requires Counted(counts)
    ensures Counted(OneLess(OneMore(counts, id), id)) && SameLoads(OneLess(OneMore(counts, id), id), counts)
  {
  }

  class Server {
    const balancer: Balancer
    var active: int
    var registry: set<string>
    /** The scheduler's in-flight counts per local model. */
    var modelInflight: map<string, int>

    constructor (b: Balancer)
      ensures balancer == b && active == 0 && registry == {} && modelInflight == map[]
    {
      balancer, active, registry, modelInflight := b, 0, {}, map[];
    }

    /** The counters now. */
    ghost function Now(): Snapshot
      reads this, balancer
    {
      Snapshot(active, registry, modelInflight, balancer.inflight)
    }

    method ModelEnter(id: string)
      modifies this`modelInflight
      ensures modelInflight == OneMore(old(modelInflight), id)
    {
      modelInflight := modelInflight[id := Load(modelInflight, id) + 1];
    }

    method ModelLeave(id: string)
      modifies this`modelInflight
      ensures modelInflight == OneLess(old(modelInflight), id)
    {
      if Load(modelInflight, id) > 0 {
        modelInflight := modelInflight[id := Load(modelInflight, id) - 1];
      }
    }

    /** selectSpecificBackend. */
    method SelectSpecific(model: string, scheduled: Option<Option<string>>) returns (first: Option<Candidate>)
      requires balancer.Valid()
      ensures GoesTo(balancer.backends, balancer.models, model, scheduled, first)
    {
      if scheduled.Some? {
        if scheduled.value == None {
          return None;
        }
        return Some(Candidate(TrimSlash(scheduled.value.value), LOCAL_PREFIX + model, model));
      }
      var b := balancer.GetBackendByModel(model);
      return if b == None then None else Some(CandidateOf(b.value));
    }

    /** selectBackend.  rule is the tag of the matching routing rule; scheduled is Some
        when the model is a local one, and then holds its address once it is ready. */
    method SelectBackend(model: string, rule: Option<string>, scheduled: Option<Option<string>>, spin: nat -> string)
        returns (first: Option<Candidate>, next: Next, ghost picked: Option<Backend>)
      requires balancer.Valid()
      ensures next == if model != "" && model != "llm_proxy" then NoFailover else if rule.Some? then FromTag(rule.value) else FromPool
      ensures Direct(model) ==> GoesTo(balancer.backends, balancer.models, model, scheduled, first)
      ensures !Direct(model) ==>
        && Picked(balancer.backends, balancer.inflight, Destinations(balancer.backends, rule), spin, picked)
        && Offered(picked, first)
      ensures first.Some? ==> first.value.node in Reachable(balancer.backends, first.value, next)
      ensures first.Some? && !Direct(model) ==> first.value.schedModel == ""
    {
      picked, first := None, None;
      if model != "" && model != PROXY_MODEL_ID {
        next := NoFailover;
        first := SelectSpecific(model, scheduled);
        return;
      }
      var b: Option<Backend>;
      if rule.Some? {
        next := FromTag(rule.value);
        b := balancer.SelectFromTagExcluding(rule.value, {}, spin);
        assert balancer.TagEligible(rule.value, {}) == Destinations(balancer.backends, rule);
      } else {
        next := FromPool;
        b := balancer.SelectExcluding({}, spin);
        assert balancer.ExcludeEligible({}) == Destinations(balancer.backends, rule);
      }
      picked := b;
      if b == None {
        return None, next, picked;
      }
      HttpIsValid(TrimSlash(b.value.url));
      if !ValidURL(TrimSlash(b.value.url)) {
        return None, next, picked;
      }
      return Some(CandidateOf(b.value)), next, picked;
    }

    /** The failover function: a candidate not tried yet, if there is one, and a lightest
        one. */
    method NextBackend(first: Candidate, next: Next, tried: set<string>, spin: nat -> string) returns (c: Option<Candidate>)
      requires balancer.Valid() && first.node in tried
      ensures c == None <==> Reachable(balancer.backends, first, next) <= tried
      ensures c.Some? ==> c.value.node in Reachable(balancer.backends, first, next) - tried
      ensures c.Some? ==>
        Light(balancer.backends, balancer.inflight, Reachable(balancer.backends, first, next) - tried, c.value.node)
    {
      var b: Option<Backend>;
      match next {
        case NoFailover => return None;
        case FromPool =>
          b := balancer.SelectExcluding(tried, spin);
          assert balancer.ExcludeEligible(tried) == Reachable(balancer.backends, first, next) - tried;
        case FromTag(tag) =>
          b := balancer.SelectFromTagExcluding(tag, tried, spin);
          assert balancer.TagEligible(tag, tried) == Reachable(balancer.backends, first, next) - tried;
      }
      if b == None {
        return None;
      }
      return Some(CandidateOf(b.value));
    }

    /** The failover loop.  On success the node served stays entered. */
    method Forward(first: Candidate, next: Next, spin: nat -> nat -> string, answer: nat -> Answer)
        returns (reply: Reply, attempts: seq<Attempt>, ghost during: seq<Snapshot>)
      requires balancer.Valid()
      requires first.node in Reachable(balancer.backends, first, next)
      modifies balancer`inflight
      ensures balancer.Valid()
      ensures AllFailed(attempts, answer) && Tried(attempts) <= Reachable(balancer.backends, first, next)
      ensures InOrder(balancer.backends, old(balancer.inflight), Reachable(balancer.backends, first, next),
                      first.node, Route(reply, attempts))
      ensures |during| == |Route(reply, attempts)|
      ensures forall i | 0 <= i < |during| ::
        Sent(during[i], old(Now()), balancer.backends.Keys, Route(reply, attempts)[i])
      ensures match reply
        case Rejected => false
        case InternalError => answer(|attempts|) == Unbuilt && SameLoads(balancer.inflight, old(balancer.inflight))
        case Failed(code, report) =>
          && report == attempts && attempts != [] && Tried(attempts) == Reachable(balancer.backends, first, next)
          && code == FailureCode(attempts)
          && SameLoads(balancer.inflight, old(balancer.inflight))
        case Served(node) =>
          && answer(|attempts|) == Status(OK_STATUS)
          && node in Reachable(balancer.backends, first, next) - Tried(attempts)
          && SameLoads(Left(balancer.backends.Keys, balancer.inflight, node), old(balancer.inflight))
    {
      hide InOrder, Light, AllFailed, SameLoads, Reachable, Sent;
      attempts, during := [], [];
      var cand, tried := first, {first.node};
      ghost var reach := Reachable(balancer.backends, first, next);
      NothingTried(balancer.backends, balancer.inflight, reach, first.node, answer);
      while true
        invariant balancer.Valid() && SameLoads(balancer.inflight, old(balancer.inflight))
        invariant tried == Tried(attempts) + {cand.node} && cand.node !in Tried(attempts)
        invariant first.node in tried && tried <= reach
        invariant AllFailed(attempts, answer)
        invariant InOrder(balancer.backends, old(balancer.inflight), reach, first.node, Nodes(attempts) + [cand.node])
        invariant |during| == |attempts|
        invariant forall i | 0 <= i < |during| :: Sent(during[i], old(Now()), balancer.backends.Keys, attempts[i].node)
        decreases reach - tried
      {
        var outcome := answer(|attempts|);
        if outcome == Unbuilt {
          OrderShrinks(balancer.backends, old(balancer.inflight), reach, first.node, Nodes(attempts), cand.node);
          return InternalError, attempts, during;
        }
        ghost var before := balancer.inflight;
        balancer.Enter(cand.node);
        EnterLeave(balancer.backends.Keys, before, cand.node, old(balancer.inflight));
        SentNow(Now(), old(Now()), before, balancer.backends.Keys, cand.node);
        during := during + [Now()];
        if outcome == Status(OK_STATUS) {
          return Served(cand.node), attempts, during;
        }
        balancer.Leave(cand.node);
        OneMoreFailed(attempts, answer, cand.node);
        ghost var nodes := Nodes(attempts) + [cand.node];
        attempts := attempts + [Attempt(cand.node, outcome)];
        assert Nodes(attempts) == nodes && Route(Failed(0, attempts), attempts) == nodes;
        var nb := NextBackend(first, next, tried, spin(|attempts|));
        if nb == None {
          var code := if outcome.Status? then outcome.code else BAD_GATEWAY;
          return Failed(code, attempts), attempts, during;
        }
        LightStays(balancer.backends, balancer.inflight, old(balancer.inflight), reach - tried, nb.value.node);
        assert tried == set n | n in nodes by { NodesTried(attempts); }
        OrderGrows(balancer.backends, old(balancer.inflight), reach, first.node, nodes, nb.value.node);
        cand := nb.value;
        tried := tried + {cand.node};
      }
    }

    /** The request once a backend was chosen: registered, forwarded, and taken off every
        counter again on whatever exit; while it is forwarded, every counter says so. */
    method Serve(id: string, first: Candidate, next: Next, spin: nat -> nat -> string, answer: nat -> Answer)
        returns (reply: Reply, ghost attempts: seq<Attempt>, ghost during: seq<Snapshot>)
      requires balancer.Valid() && id !in registry && Counted(modelInflight)
      requires first.node in Reachable(balancer.backends, first, next)
      modifies this`active, this`registry, this`modelInflight, balancer`inflight
      ensures balancer.Valid() && Counted(modelInflight)
      ensures active == old(active) && registry == old(registry)
      ensures SameLoads(modelInflight, old(modelInflight)) && SameLoads(balancer.inflight, old(balancer.inflight))
      ensures AllFailed(attempts, answer) && reply != Rejected && Tried(attempts) <= Reachable(balancer.backends, first, next)
      ensures InOrder(balancer.backends, old(balancer.inflight), Reachable(balancer.backends, first, next),
                      first.node, Route(reply, attempts))
      ensures |during| == |Route(reply, attempts)|
      ensures forall i | 0 <= i < |during| ::
        UnderWay(during[i], old(Now()), id, first.schedModel, balancer.backends.Keys, Route(reply, attempts)[i])
      ensures reply == InternalError ==> answer(|attempts|) == Unbuilt
      ensures reply != InternalError ==> Route(reply, attempts) != []
      ensures reply.Failed? ==> attempts == reply.attempts && Tried(attempts) == Reachable(balancer.backends, first, next)
      ensures reply.Failed? ==> attempts != [] && reply.code == FailureCode(attempts)
      ensures reply.Served? ==> reply.node in Reachable(balancer.backends, first, next) && answer(|attempts|) == Status(OK_STATUS)
    {
      hide InOrder, Light, AllFailed, Reachable;
      active := active + 1;
      registry := registry + {id};
      var schedModel := "";
      if first.schedModel != "" {
        schedModel := first.schedModel;
        OneMoreOneLess(modelInflight, schedModel);
        ModelEnter(schedModel);
      }
      ghost var start := Now();
      reply, attempts, during := Forward(first, next, spin, answer);
      forall i | 0 <= i < |during|
        ensures UnderWay(during[i], old(Now()), id, first.schedModel, balancer.backends.Keys, Route(reply, attempts)[i])
      {
        SentIsUnderWay(during[i], start, old(Now()), id, first.schedModel, balancer.backends.Keys, Route(reply, attempts)[i]);
      }
      // What the deferred function does, on every exit.
      balancer.Leave(if reply.Served? then reply.node else "");
      if schedModel != "" {
        ModelLeave(schedModel);
      }
      registry := registry - {id};
      active := active - 1;
    }

    /** handleProxy, from the choice of a backend to the end of the request.  Whatever
        happens, every counter ends as it began; a request is rejected exactly when it names
        nobody that can serve it, its pool is empty or the address picked is invalid; it goes
        where the choice says, then to the lightest node not tried yet; a failure is reported
        only once every node it may go to was tried, each exactly once, and none answered
        200.  during holds the counters at each attempt. */
    method HandleProxy(id: string, model: string, rule: Option<string>, scheduled: Option<Option<string>>,
                       spin: nat -> nat -> string, answer: nat -> Answer)
        returns (reply: Reply, ghost attempts: seq<Attempt>, ghost first: Option<Candidate>,
                 ghost picked: Option<Backend>, ghost during: seq<Snapshot>)
      requires balancer.Valid() && id !in registry && Counted(modelInflight)
      modifies this`active, this`registry, this`modelInflight, balancer`inflight
      ensures balancer.Valid() && Counted(modelInflight)
      ensures active == old(active) && registry == old(registry)
      ensures SameLoads(modelInflight, old(modelInflight)) && SameLoads(balancer.inflight, old(balancer.inflight))
      ensures AllFailed(attempts, answer) && (reply.Failed? ==> reply.attempts == attempts)
      ensures reply.Served? ==> answer(|attempts|) == Status(OK_STATUS)
      ensures reply == InternalError ==> answer(|attempts|) == Unbuilt
      ensures reply.Failed? ==> attempts != [] && reply.code == FailureCode(attempts)
      // Who is chosen, and when nobody is.
      ensures reply == Rejected <==> first == None
      ensures Direct(model) ==> GoesTo(balancer.backends, balancer.models, model, scheduled, first)
      ensures !Direct(model) ==>
        && Picked(balancer.backends, old(balancer.inflight), Destinations(balancer.backends, rule), spin(0), picked)
        && Offered(picked, first)
      // What the counters say meanwhile.
      ensures |during| == |Route(reply, attempts)|
      ensures first.Some? ==> forall i | 0 <= i < |during| ::
        UnderWay(during[i], old(Now()), id, first.value.schedModel, balancer.backends.Keys, Route(reply, attempts)[i])
      // Where the request goes.
      ensures first.Some? && reply != InternalError ==> Route(reply, attempts) != []
      ensures Direct(model) && first.Some? ==> forall n | n in Route(reply, attempts) :: n == first.value.node
      ensures !Direct(model) && first.Some? ==>
        InOrder(balancer.backends, old(balancer.inflight), Destinations(balancer.backends, rule), first.value.node, Route(reply, attempts))
      ensures !Direct(model) && reply.Failed? ==> Tried(attempts) == Destinations(balancer.backends, rule)
      ensures !Direct(model) && reply.Served? ==> reply.node in Destinations(balancer.backends, rule)
    {
      hide InOrder, Light, Picked, GoesTo, UnderWay;
      attempts, during := [], [];
      var cand, next;
      cand, next, picked := SelectBackend(model, rule, scheduled, spin(0));
      first := cand;
      if cand == None {
        return Rejected, attempts, first, picked, during;
      }
      reply, attempts, during := Serve(id, cand.value, next, spin, answer);
      if Direct(model) {
        RouteStays(reply, attempts, {cand.value.node});
      }
    }
  }

  /** s is start but for one request more at node. */
  ghost predicate Sent(s: Snapshot, start: Snapshot, pool: set<string>, node: string) {
    && s.active == start.active && s.registry == start.registry && s.models == start.models
    && forall n :: Load(s.nodes, n) == Load(start.nodes, n) + if n == node && n != "" && n in pool then 1 else 0
  }

  lemma SentNow(s: Snapshot, start: Snapshot, before: map<string, int>, pool: set<string>, node: string)
    requires s == start.(nodes := Entered(pool, before, node)) && SameLoads(before, start.nodes)
    ensures Sent(s, start, pool, node)
  {
    forall n ensures Load(s.nodes, n) == Load(start.nodes, n) + if n == node && n != "" && n in pool then 1 else 0 {
      assert Load(before, n) == Load(start.nodes, n);
    }
  }

  lemma SentIsUnderWay(s: Snapshot, start: Snapshot, before: Snapshot, id: string, model: string, pool: set<string>, node: string)
    requires Sent(s, start, pool, node)
    requires start.active == before.active + 1 && start.registry == before.registry + {id} && start.nodes == before.nodes
    requires start.models == if model != "" then OneMore(before.models, model) else before.models
    ensures UnderWay(s, before, id, model, pool, node)
  {
  }

  lemma NodesTried(attempts: seq<Attempt>)
    ensures (set n | n in Nodes(attempts)) == Tried(attempts)
  {
    forall a | a in attempts ensures a.node in Nodes(attempts) {
      var i :| 0 <= i < |attempts| && attempts[i] == a;
      assert Nodes(attempts)[i] == a.node;
    }
  }

  lemma RouteStays(reply: Reply, attempts: seq<Attempt>, reach: set<string>)
    requires Tried(attempts) <= reach && (reply.Served? ==> reply.node in reach)
    ensures forall n | n in Route(reply, attempts) :: n in reach
  {
    NodesTried(attempts);
    forall n | n in Nodes(attempts) ensures n in reach {
      assert n in (set m | m in Nodes(attempts));
    }
  }

  /** Equal loads, the same lightest nodes: what an attempt adds to a counter it takes off
      again before the next node is chosen. */
  lemma LightStays(backends: map<string, Backend>, a: map<string, int>, b: map<string, int>, group: set<string>, n: string)
    requires SameLoads(a, b) && Light(backends, a, group, n)
    ensures Light(backends, b, group, n)
  {
    if Weighted(backends, group) {
      forall m | m in Able(backends, group) ensures NoHeavier(backends, b, n, m) {
        assert NoHeavier(backends, a, n, m) && Load(a, n) == Load(b, n) && Load(a, m) == Load(b, m);
      }
    }
  }

  lemma OrderGrows(backends: map<string, Backend>, inflight: map<string, int>, reach: set<string>, first: string,
                   nodes: seq<string>, n: string)
    requires nodes != [] && InOrder(backends, inflight, reach, first, nodes)
    requires Light(backends, inflight, reach - (set m | m in nodes), n)
    ensures InOrder(backends, inflight, reach, first, nodes + [n])
  {
    var more := nodes + [n];
    forall i | 0 < i < |more| ensures Light(backends, inflight, reach - (set m | m in more[..i]), more[i]) {
      assert more[..i] == nodes[..i];
      assert i == |nodes| ==> nodes[..i] == nodes;
    }
  }

  lemma OrderShrinks(backends: map<string, Backend>, inflight: map<string, int>, reach: set<string>, first: string,
                     nodes: seq<string>, n: string)
    requires InOrder(backends, inflight, reach, first, nodes + [n])
    ensures InOrder(backends, inflight, reach, first, nodes + [])
  {
    var more := nodes + [n];
    assert nodes + [] == nodes;
    forall i | 0 < i < |nodes| ensures Light(backends, inflight, reach - (set m | m in nodes[..i]), nodes[i]) {
      assert more[..i] == nodes[..i] && more[i] == nodes[i];
    }
  }

  lemma NothingTried(backends: map<string, Backend>, inflight: map<string, int>, reach: set<string>, first: string, answer: nat -> Answer)
    ensures AllFailed([], answer) && SameLoads(inflight, inflight)
    ensures InOrder(backends, inflight, reach, first, Nodes([]) + [first])
  {
  }

  lemma EnterLeave(pool: set<string>, counts: map<string, int>, n: string, start: map<string, int>)
    requires Counted(counts) && SameLoads(counts, start)
    ensures SameLoads(Left(pool, Entered(pool, counts, n), n), start)
  {
    forall m ensures Load(Left(pool, Entered(pool, counts, n), n), m) == Load(start, m) {
      Accounting.OpenClose(pool, counts, n, m);
    }
  }

  lemma OneMoreFailed(attempts: seq<Attempt>, answer: nat -> Answer, node: string)
    requires AllFailed(attempts, answer) && node !in Tried(attempts)
    requires answer(|attempts|) == Broken || (answer(|attempts|).Status? && answer(|attempts|).code != OK_STATUS)
    ensures AllFailed(attempts + [Attempt(node, answer(|attempts|))], answer)
    ensures Tried(attempts + [Attempt(node, answer(|attempts|))]) == Tried(attempts) + {node}
  {
    var last := Attempt(node, answer(|attempts|));
    forall i | 0 <= i < |attempts| ensures attempts[i].node != node {
      assert attempts[i] in attempts;
    }
    assert last in attempts + [last];
    forall n ensures n in Tried(attempts + [last]) <==> n in Tried(attempts) || n == node {
      if n in Tried(attempts) {
        var a :| a in attempts && a.node == n;
        assert a in attempts + [last];
      }
    }
  }
}
