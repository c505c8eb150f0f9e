/** Waiting for the driver to hand back GPU memory (internal/scheduler/gpuwait.go). */
module GpuWait {
  import opened Text

  const DROP_THRESHOLD := 512
  const STABLE_READS := 3
  /** The wait never needs more polls than this. */
  const MAX_POLLS := 6144

  datatype Outcome = NoBaseline | Cancelled | NoReading | Released | Unchanged | TimedOut

  /** The environment, poll by poll: the used memory of each card (or a failed query),
      whether the caller was cancelled, whether the deadline has passed. */
  datatype World = World(read: nat -> Option<seq<int>>, cancelled: nat -> bool, late: nat -> bool)

  function Sum(xs: seq<int>): int {
    if xs == [] then 0 else Sum(xs[..|xs| - 1]) + xs[|xs| - 1]
  }

  function Total(w: World, k: nat): int {
    match w.read(k)
    case Some(cards) => Sum(cards)
    case None => 0
  }

  /** The least of the baseline and the first n readings. */
  function Low(w: World, baseline: int, n: nat): (low: int)
    ensures low <= baseline
  {
    if n == 0 then baseline
    else if Total(w, n - 1) < Low(w, baseline, n - 1) then Total(w, n - 1)
    else Low(w, baseline, n - 1)
  }

  function Freed(w: World, baseline: int, n: nat): nat {
    baseline - Low(w, baseline, n)
  }

  /** Three readings in a row brought nothing new. */
  predicate Quiet(w: World, baseline: int, n: nat) {
    n >= STABLE_READS && Low(w, baseline, n - STABLE_READS) == Low(w, baseline, n)
  }

  /** After n readings the wait is over by itself: enough memory came back and no more is
      coming, or plenty did, or nothing is going to. */
  predicate Settled(w: World, baseline: int, n: nat) {
    n > 0 && (Quiet(w, baseline, n) || Freed(w, baseline, n) >= 4 * DROP_THRESHOLD)
  }

  lemma {:induction false} LowFalls(w: World, baseline: int, m: nat, n: nat)
    requires m <= n
    ensures Low(w, baseline, n) <= Low(w, baseline, m)
    decreases n
  {
    if m < n {
      LowFalls(w, baseline, m, n - 1);
    }
  }

  /** The minimum is attained and is a lower bound. */
  lemma {:induction false} LowIsMinimum(w: World, baseline: int, n: nat)
    ensures forall k | 0 <= k < n :: Low(w, baseline, n) <= Total(w, k)
    ensures Low(w, baseline, n) == baseline || exists k | 0 <= k < n :: Low(w, baseline, n) == Total(w, k)
  {
    if n > 0 {
      LowIsMinimum(w, baseline, n - 1);
    }
  }

  /** Three polls in which nothing settles free at least one unit. */
  lemma {:induction false} FreedGrows(w: World, baseline: int, d: nat)
    requires forall k | 0 <= k <= 3 * d :: !Settled(w, baseline, k)
    ensures Freed(w, baseline, 3 * d) >= d
  {
    if d > 0 {
      FreedGrows(w, baseline, d - 1);
      LowFalls(w, baseline, 3 * d - 3, 3 * d);
      assert !Settled(w, baseline, 3 * d);
    }
  }

  /** Whatever the readings, some poll among the first 6144 settles the wait. */
  lemma AlwaysSettles(w: World, baseline: int)
    ensures exists n | 0 < n <= MAX_POLLS :: Settled(w, baseline, n)
  {
    if forall n | 0 < n <= MAX_POLLS :: !Settled(w, baseline, n) {
      assert forall k | 0 <= k <= 3 * 2048 :: !Settled(w, baseline, k);
      FreedGrows(w, baseline, 2048);
      assert Settled(w, baseline, MAX_POLLS);
    }
  }

  /** Memory that trickles back one unit every third poll. */
  function Trickle(baseline: int): World {
    World(k => Some([baseline - (k + 1) / 3]), k => false, k => false)
  }

  lemma {:induction false} TrickleLow(baseline: int, n: nat)
    ensures Low(Trickle(baseline), baseline, n) == baseline - n / 3
  {
    if n > 0 {
      TrickleLow(baseline, n - 1);
      var card := baseline - n / 3;
      assert Trickle(baseline).read(n - 1) == Some([card]);
      assert Sum([card]) == card by { assert [card][..0] == []; }
    }
  }

  /** The bound is exact: the slowest release settles at poll 6144 and not before. */
  lemma BoundIsExact(baseline: int, n: nat)
    ensures Settled(Trickle(baseline), baseline, n) <==> n >= MAX_POLLS
  {
    TrickleLow(baseline, n);
    if n >= STABLE_READS {
      TrickleLow(baseline, n - STABLE_READS);
    }
  }

  /** The loop body's sum over the cards. */
  method AddUp(cards: seq<int>) returns (total: int)
    ensures total == Sum(cards)
  {
    total := 0;
    for i := 0 to |cards|
      invariant total == Sum(cards[..i])
    {
      assert cards[..i + 1][..i] == cards[..i];
      total := total + cards[i];
    }
    assert cards[..|cards|] == cards;
  }

  /** Nothing has ended the wait in its first n polls. */
  ghost predicate Ongoing(w: World, baseline: int, n: nat) {
    n == 0 || (Ongoing(w, baseline, n - 1) && GoesOn(w, baseline, n - 1))
  }

  ghost predicate GoesOn(w: World, baseline: int, k: nat) {
    !w.cancelled(k) && w.read(k).Some? && !w.late(k) && !Settled(w, baseline, k + 1)
  }

  /** The loop's variables after n readings: the minimum, and for how long it has stood. */
  ghost predicate Tracks(w: World, baseline: int, n: nat, last: int, stable: nat) {
    && stable <= n && last == Low(w, baseline, n) == Low(w, baseline, n - stable)
    && (n > stable ==> Low(w, baseline, n - stable - 1) > last)
  }

  lemma TracksNext(w: World, baseline: int, n: nat, last: int, stable: nat)
    requires Tracks(w, baseline, n, last, stable)
    ensures if Total(w, n) < last then Tracks(w, baseline, n + 1, Total(w, n), 0)
            else Tracks(w, baseline, n + 1, last, stable + 1)
  {
  }

  /** Counting the readings since the last drop is the same as comparing minima. */
  lemma QuietMeansStable(w: World, baseline: int, n: nat, last: int, stable: nat)
    requires Tracks(w, baseline, n, last, stable)
    ensures Quiet(w, baseline, n) <==> stable >= STABLE_READS
    ensures n > 0 ==> (Settled(w, baseline, n) <==> stable >= STABLE_READS || baseline - last >= 4 * DROP_THRESHOLD)
  {
    if stable >= STABLE_READS {
      LowFalls(w, baseline, n - stable, n - STABLE_READS);
      LowFalls(w, baseline, n - STABLE_READS, n);
    } else if n >= STABLE_READS {
      LowFalls(w, baseline, n - STABLE_READS, n - stable - 1);
    }
  }

  /** waitForGPURelease.  It stops at the first poll that settles, fails, is cancelled or
      is late, and never polls more than 6144 times. */
  method WaitForGPURelease(w: World, baseline: int) returns (out: Outcome, last: int, polls: nat)
    ensures polls <= MAX_POLLS
    ensures out == NoBaseline <==> baseline <= 0
    ensures out != NoReading ==> last == Low(w, baseline, polls)
    ensures out == Released ==> baseline - last >= DROP_THRESHOLD && Settled(w, baseline, polls)
    ensures out == Unchanged ==> baseline - last < DROP_THRESHOLD && Quiet(w, baseline, polls)
    ensures out == TimedOut ==> polls > 0 && w.late(polls - 1) && !Settled(w, baseline, polls)
    ensures out == Cancelled ==> w.cancelled(polls)
    ensures out == NoReading ==> polls > 0 && w.read(polls - 1) == None && last == Low(w, baseline, polls - 1)
    ensures polls > 0 ==> Ongoing(w, baseline, polls - 1)
  {
    hide Quiet, Settled, Freed;
    last, polls := baseline, 0;
    if baseline <= 0 {
      return NoBaseline, last, polls;
    }
    var stable := 0;
    while true
      invariant Tracks(w, baseline, polls, last, stable)
      invariant 0 <= stable < STABLE_READS && 0 <= baseline - last < 4 * DROP_THRESHOLD
      invariant polls <= 3 * (baseline - last) + stable
      invariant Ongoing(w, baseline, polls)
      decreases 3 * (4 * DROP_THRESHOLD - (baseline - last)) - stable
    {
      if w.cancelled(polls) {
        return Cancelled, last, polls;
      }
      var used := w.read(polls);
      if used == None {
        polls := polls + 1;
        return NoReading, last, polls;
      }
      var total := AddUp(used.value);
      TracksNext(w, baseline, polls, last, stable);
      polls := polls + 1;
      if total < last {
        last, stable := total, 0;
      } else {
        stable := stable + 1;
      }
      QuietMeansStable(w, baseline, polls, last, stable);
      var dropped := baseline - last;
      if (dropped >= DROP_THRESHOLD && stable >= STABLE_READS) || dropped >= 4 * DROP_THRESHOLD {
        return Released, last, polls;
      }
      if stable >= STABLE_READS && dropped < DROP_THRESHOLD {
        return Unchanged, last, polls;
      }
      if w.late(polls - 1) {
        return TimedOut, last, polls;
      }
    }
  }
}
