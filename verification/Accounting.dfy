/** In-flight counters over interleavings of forwards and pool rebuilds. */
module Accounting {
  import opened Balancer

  datatype Event = Opened(node: string) | Closed(node: string) | Rebuilt(pool: set<string>)

  /** The balancer's counters beside the forwards that are really under way. */
  datatype Books = Books(pool: set<string>, counts: map<string, int>, open: multiset<string>)

  /** A forward ends only after it began. */
  predicate Possible(b: Books, ev: Event) {
    ev.Closed? ==> ev.node in b.open
  }

  function Record(b: Books, ev: Event): Books {
    match ev
    case Opened(n) => Books(b.pool, Entered(b.pool, b.counts, n), b.open + multiset{n})
    case Closed(n) => Books(b.pool, Left(b.pool, b.counts, n), b.open - multiset{n})
    case Rebuilt(pool) => Books(pool, Kept(pool, b.counts), b.open)
  }

  predicate IsLog(b: Books, evs: seq<Event>)
    decreases |evs|
  {
    evs == [] || (Possible(b, evs[0]) && IsLog(Record(b, evs[0]), evs[1..]))
  }

  function After(b: Books, evs: seq<Event>): Books
    decreases |evs|
  {
    if evs == [] then b else After(Record(b, evs[0]), evs[1..])
  }

  /** Counters exist for members only and never exceed the forwards under way. */
  ghost predicate Sound(b: Books) {
    && b.counts.Keys <= b.pool && "" !in b.counts
    && forall n :: 0 <= Load(b.counts, n) <= b.open[n]
  }

  lemma RecordSound(b: Books, ev: Event)
    requires Sound(b) && Possible(b, ev)
    ensures Sound(Record(b, ev))
  {
    forall n ensures 0 <= Load(Record(b, ev).counts, n) <= Record(b, ev).open[n] {
      assert 0 <= Load(b.counts, n) <= b.open[n];
    }
  }

  /** Over every interleaving of forwards and rebuilds: counters stay within the pool and
      between zero and the number of forwards under way. */
  lemma {:induction false} CountsBounded(b: Books, evs: seq<Event>)
    requires Sound(b) && IsLog(b, evs)
    ensures Sound(After(b, evs))
    decreases |evs|
  {
    if evs != [] {
      RecordSound(b, evs[0]);
      CountsBounded(Record(b, evs[0]), evs[1..]);
    }
  }

  predicate Exact(b: Books, n: string) { Load(b.counts, n) == b.open[n] }

  /** n's counter is exact in every state of the log. */
  predicate ExactAlong(b: Books, evs: seq<Event>, n: string)
    decreases |evs|
  {
    Exact(b, n) && (evs == [] || ExactAlong(Record(b, evs[0]), evs[1..], n))
  }

  /** Whenever n is out of the pool, nothing is under way to it. */
  predicate DrainedWhenOut(b: Books, evs: seq<Event>, n: string)
    decreases |evs|
  {
    (n in b.pool || b.open[n] == 0) && (evs == [] || DrainedWhenOut(Record(b, evs[0]), evs[1..], n))
  }

  /** The counter stays exact if and only if the node is drained before it is removed, and
      nothing is forwarded to it while it is out. */
  lemma {:induction false} CountExactExactlyWhen(b: Books, evs: seq<Event>, n: string)
    requires Sound(b) && IsLog(b, evs) && n != "" && Exact(b, n)
    ensures ExactAlong(b, evs, n) <==> DrainedWhenOut(b, evs, n)
    decreases |evs|
  {
    if evs != [] {
      RecordSound(b, evs[0]);
      var b1 := Record(b, evs[0]);
      if Exact(b1, n) {
        CountExactExactlyWhen(b1, evs[1..], n);
      }
    }
  }

  /** A node that comes back starts at zero: its counter is exact again if and only if
      nothing is under way to it. */
  lemma RejoinStartsAtZero(b: Books, pool: set<string>, n: string)
    requires Sound(b) && n !in b.pool
    ensures var b' := Record(b, Rebuilt(pool)); Load(b'.counts, n) == 0 && (Exact(b', n) <==> b.open[n] == 0)
  {
    assert n !in b.counts;
  }

  /** Removing a node with a forward under way and bringing it back is such a log. */
  lemma RejoinUndercounts(b: Books, n: string)
    requires Sound(b) && n in b.pool && n != "" && Exact(b, n) && b.open[n] > 0
    ensures var evs := [Rebuilt(b.pool - {n}), Rebuilt(b.pool)];
      IsLog(b, evs) && !ExactAlong(b, evs, n) && Load(After(b, evs).counts, n) < After(b, evs).open[n]
  {
    var evs := [Rebuilt(b.pool - {n}), Rebuilt(b.pool)];
    var b1 := Record(b, evs[0]);
    var b2 := Record(b1, evs[1]);
    assert evs[1..] == [evs[1]] && [evs[1]][1..] == [];
    assert IsLog(b2, []) && After(b2, []) == b2;
    assert IsLog(b1, [evs[1]]) && After(b1, [evs[1]]) == After(b2, []);
    assert IsLog(b, evs) && After(b, evs) == After(b1, [evs[1]]);
    RecordSound(b, evs[0]);
    RejoinStartsAtZero(b1, b.pool, n);
    assert !DrainedWhenOut(b1, [evs[1]], n);
    CountExactExactlyWhen(b, evs, n);
  }

  /** Opening and closing one forward with no rebuild between leaves every count as it was. */
  lemma OpenClose(pool: set<string>, counts: map<string, int>, n: string, m: string)
    requires forall x :: Load(counts, x) >= 0
    ensures Load(Left(pool, Entered(pool, counts, n), n), m) == Load(counts, m)
  {
    assert Load(counts, n) >= 0;
  }
}
