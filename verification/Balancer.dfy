/** The load-aware balancer (internal/balancer/balancer.go). */
module Balancer {
  import opened Text
  import opened Config

  // Loads per unit of weight, compared exactly.

  /** In-flight requests of n, 0 when it was never entered. */
  function Load(inflight: map<string, int>, n: string): int {
    if n in inflight then inflight[n] else 0
  }

  /** n carries no more load per unit of weight than m: the fractions, multiplied out. */
  predicate NoHeavier(backends: map<string, Backend>, inflight: map<string, int>, n: string, m: string)
    requires n in backends && m in backends
  {
    Load(inflight, n) * backends[m].weight <= Load(inflight, m) * backends[n].weight
  }

  /** The eligible members of the pool. */
  function Able(backends: map<string, Backend>, elig: set<string>): set<string> {
    set n | n in backends && n in elig
  }

  function Positive(backends: map<string, Backend>, elig: set<string>): set<string> {
    set n | n in backends && n in elig && backends[n].weight > 0
  }

  /** The eligible members that carry the least load per unit of weight. */
  ghost function Lightest(backends: map<string, Backend>, inflight: map<string, int>, elig: set<string>): set<string> {
    set n | n in Able(backends, elig) && forall m | m in Able(backends, elig) :: NoHeavier(backends, inflight, n, m)
  }

  /** Every eligible member has a positive weight, as the configuration demands. */
  ghost predicate Weighted(backends: map<string, Backend>, elig: set<string>) {
    Able(backends, elig) == Positive(backends, elig)
  }

  ghost predicate Counted(inflight: map<string, int>) {
    forall n :: n in inflight ==> inflight[n] >= 0
  }

  lemma MulMono(a: int, b: int, c: int)
    requires a <= b && c >= 0
    ensures a * c <= b * c
  {
  }

  lemma MulCancel(a: int, b: int, c: int)
    requires c > 0 && a * c <= b * c
    ensures a <= b
  {
  }

  /** Comparing fractions by cross-multiplication is transitive. */
  lemma CrossTransitive(a: int, p: int, b: int, q: int, c: int, r: int)
    requires p > 0 && q > 0 && r > 0
    requires a * q <= b * p && b * r <= c * q
    ensures a * r <= c * p
  {
    MulMono(a * q, b * p, r);
    MulMono(b * r, c * q, p);
    assert (a * r) * q == (a * q) * r && (b * p) * r == (b * r) * p && (c * q) * p == (c * p) * q;
    MulCancel(a * r, c * p, q);
  }

  /** num/den is the load per weight of a member of group, and the least there. */
  ghost predicate LeastIn(backends: map<string, Backend>, inflight: map<string, int>, group: set<string>, num: int, den: int)
    requires group <= backends.Keys
  {
    && den > 0 && num >= 0
    && (forall m | m in group :: num * backends[m].weight <= Load(inflight, m) * den)
    && exists n | n in group :: num == Load(inflight, n) && den == backends[n].weight
  }

  lemma FirstIsLeast(backends: map<string, Backend>, inflight: map<string, int>, n: string)
    requires Counted(inflight) && n in backends && backends[n].weight > 0
    ensures LeastIn(backends, inflight, {n}, Load(inflight, n), backends[n].weight)
  {
    assert n in {n};
  }

  /** One more member: the lesser of the two ratios is the least of the enlarged group. */
  lemma LeastGrows(backends: map<string, Backend>, inflight: map<string, int>, group: set<string>, num: int, den: int, n: string)
    requires Counted(inflight) && group <= backends.Keys && LeastIn(backends, inflight, group, num, den)
    requires n in backends && backends[n].weight > 0 && forall m | m in group :: backends[m].weight > 0
    ensures if Load(inflight, n) * den < num * backends[n].weight
            then LeastIn(backends, inflight, group + {n}, Load(inflight, n), backends[n].weight)
            else LeastIn(backends, inflight, group + {n}, num, den)
  {
    var l, w := Load(inflight, n), backends[n].weight;
    if l * den < num * w {
      forall m | m in group ensures l * backends[m].weight <= Load(inflight, m) * w {
        CrossTransitive(l, w, num, den, Load(inflight, m), backends[m].weight);
      }
      assert n in group + {n};
    } else {
      var b :| b in group && num == Load(inflight, b) && den == backends[b].weight;
      assert b in group + {n};
    }
  }

  /** The members selection treats as equally good. */
  function Tied(backends: map<string, Backend>, inflight: map<string, int>, elig: set<string>, num: int, den: int): set<string> {
    set n | n in Able(backends, elig) &&
      if backends[n].weight > 0 then Load(inflight, n) * den == num * backends[n].weight
      else den == 1 && Load(inflight, n) == num
  }

  /** Somebody is always tied: the member the ratio, or the count, was taken from. */
  lemma SomeTied(backends: map<string, Backend>, inflight: map<string, int>, elig: set<string>, num: int, den: int)
    requires
      || LeastIn(backends, inflight, Positive(backends, elig), num, den)
      || (den == 1 && Positive(backends, elig) == {} && exists n | n in Able(backends, elig) :: num == Load(inflight, n))
    ensures Tied(backends, inflight, elig, num, den) != {} && Able(backends, elig) != {}
  {
    if LeastIn(backends, inflight, Positive(backends, elig), num, den) {
      var b :| b in Positive(backends, elig) && num == Load(inflight, b) && den == backends[b].weight;
      assert b in Tied(backends, inflight, elig, num, den);
    } else {
      var n :| n in Able(backends, elig) && num == Load(inflight, n);
      assert n !in Positive(backends, elig);
      assert n in Tied(backends, inflight, elig, num, den);
    }
  }

  lemma LightestIsTied(backends: map<string, Backend>, inflight: map<string, int>, elig: set<string>, num: int, den: int, n: string)
    requires Weighted(backends, elig) && LeastIn(backends, inflight, Positive(backends, elig), num, den)
    requires n in Lightest(backends, inflight, elig)
    ensures n in Tied(backends, inflight, elig, num, den)
  {
    var b :| b in Positive(backends, elig) && num == Load(inflight, b) && den == backends[b].weight;
    assert n in Positive(backends, elig) && NoHeavier(backends, inflight, n, b);
  }

  lemma TiedIsNoHeavier(backends: map<string, Backend>, inflight: map<string, int>, elig: set<string>, num: int, den: int, n: string)
    requires Weighted(backends, elig) && LeastIn(backends, inflight, Positive(backends, elig), num, den)
    requires n in Tied(backends, inflight, elig, num, den)
    ensures n in Lightest(backends, inflight, elig)
  {
    assert n in Positive(backends, elig);
    forall m | m in Able(backends, elig) ensures NoHeavier(backends, inflight, n, m) {
      assert m in Positive(backends, elig);
      CrossTransitive(Load(inflight, n), backends[n].weight, num, den, Load(inflight, m), backends[m].weight);
    }
  }

  /** With positive weights the tied members are the lightest ones, whichever of them the
      ratio was taken from. */
  lemma TiedIsLightest(backends: map<string, Backend>, inflight: map<string, int>, elig: set<string>, num: int, den: int)
    requires Weighted(backends, elig) && LeastIn(backends, inflight, Positive(backends, elig), num, den)
    ensures Tied(backends, inflight, elig, num, den) == Lightest(backends, inflight, elig)
  {
    forall n | n in Tied(backends, inflight, elig, num, den) ensures n in Lightest(backends, inflight, elig) {
      TiedIsNoHeavier(backends, inflight, elig, num, den, n);
    }
    forall n | n in Lightest(backends, inflight, elig) ensures n in Tied(backends, inflight, elig, num, den) {
      LightestIsTied(backends, inflight, elig, num, den, n);
    }
  }

  // Does the visiting order matter?

  /** The least ratio met when the members are visited in this order; -1/1 when none of
      them is eligible with a positive weight. */
  function Ratio(backends: map<string, Backend>, inflight: map<string, int>, elig: set<string>, order: seq<string>): (int, int) {
    if order == [] then (-1, 1)
    else
      var best := Ratio(backends, inflight, elig, order[..|order| - 1]);
      var n := order[|order| - 1];
      if n in Positive(backends, elig) && (best.0 < 0 || Load(inflight, n) * best.1 < best.0 * backends[n].weight)
      then (Load(inflight, n), backends[n].weight) else best
  }

  /** order lists the names, each once. */
  ghost predicate Lists(order: seq<string>, names: set<string>) {
    (forall n :: n in order <==> n in names) && forall i, j | 0 <= i < j < |order| :: order[i] != order[j]
  }

  function Met(backends: map<string, Backend>, elig: set<string>, order: seq<string>): set<string> {
    set n | n in Positive(backends, elig) && n in order
  }

  lemma {:induction false} RatioLeast(backends: map<string, Backend>, inflight: map<string, int>, elig: set<string>, order: seq<string>)
    requires Counted(inflight)
    ensures var r := Ratio(backends, inflight, elig, order);
      if Met(backends, elig, order) == {} then r == (-1, 1)
      else LeastIn(backends, inflight, Met(backends, elig, order), r.0, r.1)
    decreases |order|
  {
    if order != [] {
      var rest, n := order[..|order| - 1], order[|order| - 1];
      RatioLeast(backends, inflight, elig, rest);
      assert order == rest + [n];
      if n in Positive(backends, elig) {
        assert Met(backends, elig, order) == Met(backends, elig, rest) + {n};
        var r := Ratio(backends, inflight, elig, rest);
        if Met(backends, elig, rest) == {} {
          FirstIsLeast(backends, inflight, n);
          assert Met(backends, elig, order) == {n};
        } else {
          LeastGrows(backends, inflight, Met(backends, elig, rest), r.0, r.1, n);
        }
      } else {
        assert Met(backends, elig, order) == Met(backends, elig, rest);
      }
    }
  }

  /** A lightest member that comes first is the one the ratio is taken from. */
  lemma {:induction false} FirstStays(
      backends: map<string, Backend>, inflight: map<string, int>, elig: set<string>, n: string, order: seq<string>)
    requires Counted(inflight) && n in LightestPositive(backends, inflight, elig) && order != [] && order[0] == n
    ensures Ratio(backends, inflight, elig, order) == (Load(inflight, n), backends[n].weight)
    decreases |order|
  {
    if |order| > 1 {
      FirstStays(backends, inflight, elig, n, order[..|order| - 1]);
      var m := order[|order| - 1];
      assert m in Positive(backends, elig) ==> NoHeavier(backends, inflight, n, m);
    } else {
      assert order[..0] == [];
    }
  }

  /** The members of positive weight that carry the least load per unit of it. */
  ghost function LightestPositive(backends: map<string, Backend>, inflight: map<string, int>, elig: set<string>): set<string> {
    set n | n in Positive(backends, elig) && forall m | m in Positive(backends, elig) :: NoHeavier(backends, inflight, n, m)
  }

  /** The tied set as the order makes it. */
  function TiedIn(backends: map<string, Backend>, inflight: map<string, int>, elig: set<string>, order: seq<string>): set<string> {
    var r := Ratio(backends, inflight, elig, order);
    Tied(backends, inflight, elig, r.0, r.1)
  }

  /** Two lightest members, one of weight 1 and one not, and a member without a positive
      weight that has as much load as the first. */
  ghost predicate Wavers(backends: map<string, Backend>, inflight: map<string, int>, elig: set<string>) {
    exists n, m, z | n in LightestPositive(backends, inflight, elig) && m in LightestPositive(backends, inflight, elig)
      && z in Able(backends, elig) - Positive(backends, elig) ::
      backends[n].weight == 1 && backends[m].weight != 1 && Load(inflight, z) == Load(inflight, n)
  }

  lemma {:induction false} ListAll(names: set<string>) returns (order: seq<string>)
    ensures Lists(order, names)
    decreases names
  {
    order := [];
    if names != {} {
      var n :| n in names;
      var rest := ListAll(names - {n});
      order := rest + [n];
    }
  }

  lemma ListFrom(names: set<string>, n: string) returns (order: seq<string>)
    requires n in names
    ensures Lists(order, names) && order != [] && order[0] == n
  {
    var rest := ListAll(names - {n});
    order := [n] + rest;
    forall i, j | 0 <= i < j < |order| ensures order[i] != order[j] {
      if i == 0 {
        assert rest[j - 1] in rest;
      }
    }
  }

  /** Where a ratio comes from: a lightest member. */
  lemma RatioFrom(backends: map<string, Backend>, inflight: map<string, int>, elig: set<string>, order: seq<string>)
      returns (n: string)
    requires Counted(inflight) && Lists(order, backends.Keys) && Positive(backends, elig) != {}
    ensures n in LightestPositive(backends, inflight, elig)
    ensures Ratio(backends, inflight, elig, order) == (Load(inflight, n), backends[n].weight)
  {
    RatioLeast(backends, inflight, elig, order);
    assert Met(backends, elig, order) == Positive(backends, elig);
    var r := Ratio(backends, inflight, elig, order);
    n :| n in Positive(backends, elig) && r.0 == Load(inflight, n) && r.1 == backends[n].weight;
  }

  /** Two lightest members tie the same members of positive weight, and the others alike
      unless the pool wavers. */
  lemma TiesAgree(backends: map<string, Backend>, inflight: map<string, int>, elig: set<string>, n: string, m: string, x: string)
    requires n in LightestPositive(backends, inflight, elig) && m in LightestPositive(backends, inflight, elig)
    requires !Wavers(backends, inflight, elig)
    requires x in Tied(backends, inflight, elig, Load(inflight, n), backends[n].weight)
    ensures x in Tied(backends, inflight, elig, Load(inflight, m), backends[m].weight)
  {
    assert NoHeavier(backends, inflight, n, m) && NoHeavier(backends, inflight, m, n);
    var a, p, b, q, c, w := Load(inflight, n), backends[n].weight, Load(inflight, m), backends[m].weight,
      Load(inflight, x), backends[x].weight;
    if w > 0 {
      assert x in Positive(backends, elig);
      CrossTransitive(c, w, a, p, b, q);
      CrossTransitive(b, q, a, p, c, w);
    } else {
      assert x in Able(backends, elig) - Positive(backends, elig);
    }
  }

  /** The tied set is the same in every visiting order if and only if the pool does not
      waver; weights of at least 1 rule that out. */
  lemma OrderFreeExactlyWhen(backends: map<string, Backend>, inflight: map<string, int>, elig: set<string>)
    requires Counted(inflight)
    ensures (forall a, b | Lists(a, backends.Keys) && Lists(b, backends.Keys) ::
               TiedIn(backends, inflight, elig, a) == TiedIn(backends, inflight, elig, b)) <==>
            !Wavers(backends, inflight, elig)
    ensures Weighted(backends, elig) ==> !Wavers(backends, inflight, elig)
  {
    hide Ratio, Tied, LightestPositive, Lists;
    if Wavers(backends, inflight, elig) {
      var a, b := Differ(backends, inflight, elig);
    } else {
      forall a, b | Lists(a, backends.Keys) && Lists(b, backends.Keys)
        ensures TiedIn(backends, inflight, elig, a) == TiedIn(backends, inflight, elig, b)
      {
        OrdersAgree(backends, inflight, elig, a, b);
      }
    }
  }

  lemma Differ(backends: map<string, Backend>, inflight: map<string, int>, elig: set<string>) returns (a: seq<string>, b: seq<string>)
    requires Counted(inflight) && Wavers(backends, inflight, elig)
    ensures Lists(a, backends.Keys) && Lists(b, backends.Keys)
    ensures TiedIn(backends, inflight, elig, a) != TiedIn(backends, inflight, elig, b)
  {
    hide Ratio, Lists;
    var n, m, z :| n in LightestPositive(backends, inflight, elig) && m in LightestPositive(backends, inflight, elig)
      && z in Able(backends, elig) - Positive(backends, elig)
      && backends[n].weight == 1 && backends[m].weight != 1 && Load(inflight, z) == Load(inflight, n);
    a := ListFrom(backends.Keys, n);
    b := ListFrom(backends.Keys, m);
    FirstStays(backends, inflight, elig, n, a);
    FirstStays(backends, inflight, elig, m, b);
    assert z in TiedIn(backends, inflight, elig, a) && z !in TiedIn(backends, inflight, elig, b);
  }

  lemma OrdersAgree(
      backends: map<string, Backend>, inflight: map<string, int>, elig: set<string>, a: seq<string>, b: seq<string>)
    requires Counted(inflight) && !Wavers(backends, inflight, elig) && Lists(a, backends.Keys) && Lists(b, backends.Keys)
    ensures TiedIn(backends, inflight, elig, a) == TiedIn(backends, inflight, elig, b)
  {
    if Positive(backends, elig) == {} {
      RatioLeast(backends, inflight, elig, a);
      RatioLeast(backends, inflight, elig, b);
    } else {
      hide Ratio, Tied, LightestPositive, Lists, Wavers;
      var n := RatioFrom(backends, inflight, elig, a);
      var m := RatioFrom(backends, inflight, elig, b);
      forall x | x in TiedIn(backends, inflight, elig, a) ensures x in TiedIn(backends, inflight, elig, b) {
        TiesAgree(backends, inflight, elig, n, m, x);
      }
      forall x | x in TiedIn(backends, inflight, elig, b) ensures x in TiedIn(backends, inflight, elig, a) {
        TiesAgree(backends, inflight, elig, m, n, x);
      }
    }
  }

  /** Two idle members of weight 1 and 2 and an idle one of weight 0 are such a pool. */
  lemma ZeroWeightDependsOnOrder(a: Backend, b: Backend, z: Backend)
    requires a.weight == 1 && b.weight == 2 && z.weight == 0
    ensures var pool := map["a" := a, "b" := b, "z" := z];
      exists o, o' | Lists(o, pool.Keys) && Lists(o', pool.Keys) ::
        TiedIn(pool, map[], pool.Keys, o) != TiedIn(pool, map[], pool.Keys, o')
  {
    var pool := map["a" := a, "b" := b, "z" := z];
    assert Positive(pool, pool.Keys) == {"a", "b"};
    forall n, m | n in {"a", "b"} && m in {"a", "b"} ensures NoHeavier(pool, map[], n, m) {
    }
    assert "a" in LightestPositive(pool, map[], pool.Keys) && "b" in LightestPositive(pool, map[], pool.Keys);
    assert "z" in Able(pool, pool.Keys) - Positive(pool, pool.Keys);
    OrderFreeExactlyWhen(pool, map[], pool.Keys);
  }

  // Names in order.

  /** Strict lexicographic order. */
  predicate Before(a: string, b: string) {
    if b == "" then false
    else if a == "" then true
    else a[0] < b[0] || (a[0] == b[0] && Before(a[1..], b[1..]))
  }

  lemma {:induction false} BeforeTransitive(a: string, b: string, c: string)
    requires Before(a, b) && Before(b, c)
    ensures Before(a, c)
  {
    if a != "" && b != "" && c != "" && a[0] == b[0] == c[0] {
      BeforeTransitive(a[1..], b[1..], c[1..]);
    }
  }

  /** The lexicographically first of some names. */
  method FirstByName(names: set<string>) returns (first: string)
    requires names != {}
    ensures first in names && forall n | n in names :: !Before(n, first)
  {
    first :| first in names;
    var todo := names;
    while todo != {}
      invariant todo <= names && first in names
      invariant first in todo || !Before(first, first)
      invariant forall n | n in names && n !in todo :: !Before(n, first)
      decreases todo
    {
      var n :| n in todo;
      if Before(n, first) {
        forall m | m in names && m !in todo ensures !Before(m, n) {
          if Before(m, n) {
            BeforeTransitive(m, n, first);
            assert false;
          }
        }
        first := n;
      }
      Irreflexive(n);
      todo := todo - {n};
    }
  }

  lemma {:induction false} Irreflexive(a: string)
    ensures !Before(a, a)
  {
    if a != "" {
      Irreflexive(a[1..]);
    }
  }

  /** The first i calls of the rotation bring names, none of them tied. */
  ghost predicate Missed(tied: set<string>, spin: nat -> string, i: nat) {
    forall j | 0 <= j < i :: spin(j) != "" && spin(j) !in tied
  }

  ghost predicate Hit(tied: set<string>, spin: nat -> string, tries: nat, n: string) {
    exists i | 0 <= i < tries :: spin(i) == n && n in tied && Missed(tied, spin, i)
  }

  /** The rotation brings up no tied name: it is exhausted, or gives up with "". */
  ghost predicate GivesUp(tied: set<string>, spin: nat -> string, tries: nat) {
    exists i | 0 <= i <= tries :: (i == tries || spin(i) == "") && Missed(tied, spin, i)
  }

  /** The rotation decides among the tied; failing that, the lexicographic order. */
  ghost predicate Chosen(tied: set<string>, spin: nat -> string, tries: nat, n: string) {
    Hit(tied, spin, tries, n) || (GivesUp(tied, spin, tries) && n in tied && forall m | m in tied :: !Before(m, n))
  }

  // How long the rotation is asked.

  function Share(b: Backend): nat { if b.weight > 0 then b.weight else 0 }

  /** The sum of the positive weights among these members. */
  ghost function WeightSum(backends: map<string, Backend>, names: set<string>): nat
    requires names <= backends.Keys
  {
    if names == {} then 0
    else
      var n :| n in names;
      Share(backends[n]) + WeightSum(backends, names - {n})
  }

  /** Whichever member is added up first. */
  lemma {:induction false} WeightSumTakes(backends: map<string, Backend>, names: set<string>, n: string)
    requires names <= backends.Keys && n in names
    ensures WeightSum(backends, names) == Share(backends[n]) + WeightSum(backends, names - {n})
    decreases names
  {
    var m :| m in names && WeightSum(backends, names) == Share(backends[m]) + WeightSum(backends, names - {m});
    if m != n {
      WeightSumTakes(backends, names - {m}, n);
      WeightSumTakes(backends, names - {n}, m);
      assert names - {m} - {n} == names - {n} - {m};
    }
  }

  /** One full cycle of the rotation: the weight sum, or a name per member if that is more. */
  ghost function Cycle(backends: map<string, Backend>): (n: nat)
    ensures n >= |backends|
  {
    var sum := WeightSum(backends, backends.Keys);
    if sum < |backends| then |backends| else sum
  }

  /** What the rotation is asked for, added up in any order. */
  function AddedUp(backends: map<string, Backend>, order: seq<string>): int
    requires forall n :: n in order ==> n in backends
  {
    if order == [] then 0
    else (if backends[order[0]].weight > 0 then backends[order[0]].weight else 0) + AddedUp(backends, order[1..])
  }

  lemma {:induction false} WeightsAddUp(backends: map<string, Backend>, names: set<string>, order: seq<string>)
    requires names <= backends.Keys && Lists(order, names)
    ensures AddedUp(backends, order) == WeightSum(backends, names) && |order| == |names|
    decreases |order|
  {
    if order == [] {
      assert names == {};
    } else {
      var n, rest := order[0], order[1..];
      WeightSumTakes(backends, names, n);
      assert forall m :: m in rest <==> m in names - {n};
      WeightsAddUp(backends, names - {n}, rest);
    }
  }

  /** The caller's law.  In whatever order the weights are added up: if a tied name is among
      the first names of the rotation, as many as their sum, or as there are members if that
      is more, and nothing tied and no "" comes before it, it is the one chosen. */
  lemma RotationDecides(backends: map<string, Backend>, order: seq<string>, tied: set<string>, spin: nat -> string, i: nat, n: string)
    requires Lists(order, backends.Keys) && "" !in tied && Chosen(tied, spin, Cycle(backends), n)
    requires i < AddedUp(backends, order) || i < |order|
    requires spin(i) in tied && Missed(tied, spin, i)
    ensures n == spin(i)
  {
    WeightsAddUp(backends, backends.Keys, order);
    FirstTiedWins(tied, spin, Cycle(backends), i, n);
  }

  /** If a tied name comes up within the bound, and nothing tied and no "" before it, it is
      the one chosen. */
  lemma FirstTiedWins(tied: set<string>, spin: nat -> string, bound: nat, i: nat, n: string)
    requires Chosen(tied, spin, bound, n) && i < bound && spin(i) in tied && Missed(tied, spin, i) && "" !in tied
    ensures n == spin(i)
  {
    forall j | 0 <= j <= bound && (j == bound || spin(j) == "") ensures !Missed(tied, spin, j) {
      assert spin(i) in tied;
    }
    assert !GivesUp(tied, spin, bound);
    var j :| 0 <= j < bound && spin(j) == n && n in tied && Missed(tied, spin, j);
  }

  /** The eligible members with the fewest requests, for pools without a positive weight. */
  ghost function Fewest(backends: map<string, Backend>, inflight: map<string, int>, elig: set<string>): set<string> {
    set n | n in Able(backends, elig) && forall m | m in Able(backends, elig) :: Load(inflight, n) <= Load(inflight, m)
  }

  lemma FewestTied(backends: map<string, Backend>, inflight: map<string, int>, elig: set<string>, num: int)
    requires Positive(backends, elig) == {} && (forall m | m in Able(backends, elig) :: num <= Load(inflight, m))
    requires exists n | n in Able(backends, elig) :: num == Load(inflight, n)
    ensures Tied(backends, inflight, elig, num, 1) == Fewest(backends, inflight, elig)
  {
    forall n | n in Able(backends, elig) ensures n !in Positive(backends, elig) {
    }
  }

  lemma TiedAble(backends: map<string, Backend>, inflight: map<string, int>, elig: set<string>, num: int, den: int)
    ensures Tied(backends, inflight, elig, num, den) <= Able(backends, elig) <= backends.Keys
  {
  }

  // The pool.

  /** The pool by name; a later backend of the same name replaces an earlier one. */
  function ByName(list: seq<Backend>): map<string, Backend> {
    if list == [] then map[]
    else var b := list[|list| - 1]; ByName(list[..|list| - 1])[b.name := b]
  }

  /** The backend names by declared model id. */
  function ByModel(list: seq<Backend>): map<string, string> {
    if list == [] then map[]
    else
      var b := list[|list| - 1];
      var rest := ByModel(list[..|list| - 1]);
      if BackendID(b) != "" then rest[BackendID(b) := b.name] else rest
  }

  ghost predicate NamesDistinct(list: seq<Backend>) {
    forall i, j | 0 <= i < j < |list| :: list[i].name != list[j].name
  }

  /** The last backend of a name stands for it. */
  lemma {:induction false} LastNameWins(list: seq<Backend>, n: string)
    ensures n in ByName(list) <==> exists i | 0 <= i < |list| :: list[i].name == n
    ensures forall i | 0 <= i < |list| && list[i].name == n && (forall j | i < j < |list| :: list[j].name != n) ::
      ByName(list)[n] == list[i]
    decreases |list|
  {
    if list != [] {
      var rest, b := list[..|list| - 1], list[|list| - 1];
      LastNameWins(rest, n);
      assert forall i | 0 <= i < |rest| :: rest[i] == list[i];
      assert ByName(list) == ByName(rest)[b.name := b];
      if n in ByName(rest) {
        var i :| 0 <= i < |rest| && rest[i].name == n;
        assert list[i].name == n;
      }
    }
  }

  /** And the last backend that declares a model id is the one it routes to. */
  lemma {:induction false} LastModelWins(list: seq<Backend>, id: string)
    ensures id in ByModel(list) <==> id != "" && exists i | 0 <= i < |list| :: TrimSpace(list[i].model) == id
    ensures forall i | 0 <= i < |list| && id != "" && TrimSpace(list[i].model) == id
                       && (forall j | i < j < |list| :: TrimSpace(list[j].model) != id) :: ByModel(list)[id] == list[i].name
    decreases |list|
  {
    hide TrimSpace;
    if list != [] {
      var rest, b := list[..|list| - 1], list[|list| - 1];
      LastModelWins(rest, id);
      assert forall i | 0 <= i < |rest| :: rest[i] == list[i];
      assert ByModel(list) == if BackendID(b) != "" then ByModel(rest)[BackendID(b) := b.name] else ByModel(rest);
      if id in ByModel(rest) {
        var i :| 0 <= i < |rest| && TrimSpace(rest[i].model) == id;
        assert TrimSpace(list[i].model) == id;
      }
    }
  }

  /** Routing by model id reaches the one backend that declares it, and nothing else. */
  lemma ModelRouting(list: seq<Backend>, id: string)
    requires NamesDistinct(list) && BackendIDsDistinct(list)
    ensures var key := TrimSpace(id);
      && (key in ByModel(list) <==> key != "" && exists i | 0 <= i < |list| :: BackendID(list[i]) == key)
      && forall i | 0 <= i < |list| && BackendID(list[i]) == key && key != "" ::
           ByModel(list)[key] in ByName(list) && ByName(list)[ByModel(list)[key]] == list[i]
  {
    LastModelWins(list, TrimSpace(id));
    forall i | 0 <= i < |list| ensures list[i].name in ByName(list) && ByName(list)[list[i].name] == list[i] {
      LastNameWins(list, list[i].name);
    }
  }

  // Counters.

  function Entered(pool: set<string>, counts: map<string, int>, n: string): map<string, int> {
    if n != "" && n in pool then counts[n := Load(counts, n) + 1] else counts
  }

  function Left(pool: set<string>, counts: map<string, int>, n: string): map<string, int> {
    if n != "" && n in pool && Load(counts, n) > 0 then counts[n := Load(counts, n) - 1] else counts
  }

  /** The counters that survive a rebuild of the pool. */
  function Kept(pool: set<string>, counts: map<string, int>): map<string, int> {
    map n | n in counts && n in pool :: counts[n]
  }

  class Balancer {
    var backends: map<string, Backend>
    var models: map<string, string>
    /** The tags that have a pool of their own. */
    var pools: set<string>
    var inflight: map<string, int>

    ghost predicate Valid()
      reads this
    {
      && Counted(inflight) && inflight.Keys <= backends.Keys
      && (forall n :: n in backends ==> backends[n].name == n)
      && (forall n, t :: n in backends && t in EffectiveTags(backends[n]) ==> t in pools)
    }

    constructor (list: seq<Backend>)
      ensures Valid() && backends == ByName(list) && models == ByModel(list) && inflight == map[]
    {
      backends, models, pools, inflight := map[], map[], {}, map[];
      new;
      UpdateBalancer(list);
    }

    method IndexBackends(list: seq<Backend>)
      modifies this`backends, this`models, this`pools
      ensures backends == ByName(list) && models == ByModel(list)
      ensures forall n :: n in backends ==> backends[n].name == n
      ensures forall n, t :: n in backends && t in EffectiveTags(backends[n]) ==> t in pools
    {
      backends, models, pools := map[], map[], {};
      for i := 0 to |list|
        invariant backends == ByName(list[..i]) && models == ByModel(list[..i])
        invariant forall n :: n in backends ==> backends[n].name == n
        invariant forall n, t :: n in backends && t in EffectiveTags(backends[n]) ==> t in pools
      {
        var b := list[i];
        assert list[..i + 1][..i] == list[..i];
        backends := backends[b.name := b];
        var m := TrimSpace(b.model);
        if m != "" {
          models := models[m := b.name];
        }
        pools := pools + EffectiveTags(b);
      }
      assert list[..|list|] == list;
    }

    /** Drop the counters of the members that left. */
    method DropDeparted()
      modifies this`inflight
      ensures inflight == Kept(backends.Keys, old(inflight))
    {
      var todo := inflight.Keys;
      while todo != {}
        invariant todo <= inflight.Keys <= old(inflight).Keys
        invariant forall n :: n in inflight ==> inflight[n] == old(inflight)[n]
        invariant forall n :: n in old(inflight) && n !in todo ==> (n in inflight <==> n in backends)
        decreases todo
      {
        var n :| n in todo;
        todo := todo - {n};
        if n !in backends {
          inflight := inflight - {n};
        }
      }
    }

    /** updateBalancer: rebuild the pool, keep the counters of the members that stay. */
    method UpdateBalancer(list: seq<Backend>)
      requires Counted(inflight)
      modifies this
      ensures Valid()
      ensures backends == ByName(list) && models == ByModel(list)
      ensures inflight == Kept(backends.Keys, old(inflight))
    {
      IndexBackends(list);
      DropDeparted();
    }

    method Enter(name: string)
      requires Valid()
      modifies this`inflight
      ensures Valid() && inflight == Entered(backends.Keys, old(inflight), name)
    {
      if name == "" {
        return;
      }
      if name in backends {
        inflight := inflight[name := Load(inflight, name) + 1];
      }
    }

    method Leave(name: string)
      requires Valid()
      modifies this`inflight
      ensures Valid() && inflight == Left(backends.Keys, old(inflight), name)
    {
      if name == "" {
        return;
      }
      if name in backends {
        if Load(inflight, name) > 0 {
          inflight := inflight[name := Load(inflight, name) - 1];
        }
      }
    }

    /** The first pass of selectLeastLoaded, over the members in whatever order: -1/1 when
        no eligible weight is positive. */
    method BestRatio(elig: set<string>) returns (num: int, den: int, ghost order: seq<string>)
      requires Valid()
      ensures num == -1 <==> Positive(backends, elig) == {}
      ensures num != -1 ==> LeastIn(backends, inflight, Positive(backends, elig), num, den)
      ensures Lists(order, backends.Keys) && (num, den) == Ratio(backends, inflight, elig, order)
    {
      num, den, order := -1, 1, [];
      var todo := backends.Keys;
      while todo != {}
        invariant todo <= backends.Keys && Lists(order, backends.Keys - todo)
        invariant (num, den) == Ratio(backends, inflight, elig, order) && (num < 0 ==> num == -1)
        decreases todo
      {
        var n :| n in todo;
        ghost var before := order;
        order := order + [n];
        assert order[..|order| - 1] == before && order[|order| - 1] == n;
        RatioLeast(backends, inflight, elig, before);
        if n in elig && backends[n].weight > 0 {
          if num < 0 || Load(inflight, n) * den < num * backends[n].weight {
            num, den := Load(inflight, n), backends[n].weight;
          }
        }
        todo := todo - {n};
      }
      RatioLeast(backends, inflight, elig, order);
      assert Met(backends, elig, order) == Positive(backends, elig);
    }

    /** The second pass, when no eligible weight is positive: absolute counts. */
    method BestCount(elig: set<string>) returns (num: int)
      requires Valid()
      ensures num == -1 <==> Able(backends, elig) == {}
      ensures num >= -1
      ensures num != -1 ==> forall m | m in Able(backends, elig) :: num <= Load(inflight, m)
      ensures num != -1 ==> exists n | n in Able(backends, elig) :: num == Load(inflight, n)
    {
      num := -1;
      var todo := backends.Keys;
      while todo != {}
        invariant todo <= backends.Keys && num >= -1
        invariant num == -1 <==> Able(backends, elig) - todo == {}
        invariant num != -1 ==> forall m | m in Able(backends, elig) - todo :: num <= Load(inflight, m)
        invariant num != -1 ==> exists n | n in Able(backends, elig) - todo :: num == Load(inflight, n)
        decreases todo
      {
        var n :| n in todo;
        if n in elig {
          assert n in Able(backends, elig);
          if num < 0 || Load(inflight, n) < num {
            num := Load(inflight, n);
          }
        }
        todo := todo - {n};
      }
    }

    /** The tied members, collected in any order. */
    method CollectTied(elig: set<string>, num: int, den: int) returns (tied: set<string>)
      requires Valid()
      ensures tied == Tied(backends, inflight, elig, num, den)
    {
      tied := {};
      var todo := backends.Keys;
      while todo != {}
        invariant todo <= backends.Keys
        invariant tied == Tied(backends, inflight, elig, num, den) - todo
        decreases todo
      {
        var n :| n in todo;
        if n in elig {
          var w := backends[n].weight;
          if w > 0 {
            if Load(inflight, n) * den == num * w {
              tied := tied + {n};
            }
          } else if den == 1 && Load(inflight, n) == num {
            tied := tied + {n};
          }
        }
        todo := todo - {n};
      }
    }

    /** How many names the rotation is asked for. */
    method MaxTries() returns (tries: nat)
      ensures tries == Cycle(backends)
    {
      tries := 0;
      var todo := backends.Keys;
      while todo != {}
        invariant todo <= backends.Keys
        invariant tries + WeightSum(backends, todo) == WeightSum(backends, backends.Keys)
        decreases todo
      {
        var n :| n in todo;
        WeightSumTakes(backends, todo, n);
        if backends[n].weight > 0 {
          tries := tries + backends[n].weight;
        }
        todo := todo - {n};
      }
      if tries < |backends| {
        tries := |backends|;
      }
    }

    /** The rotation, then the lexicographic fallback; spin(i) is the i-th name the
        strategy balancer hands out. */
    method PickTied(tied: set<string>, spin: nat -> string) returns (r: Option<Backend>)
      requires Valid() && tied <= backends.Keys
      ensures r.Some? <==> tied != {}
      ensures r.Some? ==> Chosen(tied, spin, Cycle(backends), r.value.name) && r.value.name in backends && backends[r.value.name] == r.value
    {
      var maxTries := MaxTries();
      var i := 0;
      while i < maxTries
        invariant i <= maxTries && Missed(tied, spin, i)
      {
        var name := spin(i);
        if name == "" {
          break;
        }
        if name in tied {
          assert Hit(tied, spin, maxTries, name);
          return Some(backends[name]);
        }
        i := i + 1;
      }
      assert GivesUp(tied, spin, maxTries);
      if tied == {} {
        return None;
      }
      var first := FirstByName(tied);
      return Some(backends[first]);
    }

    /** selectLeastLoaded: present tells whether the pool has a strategy balancer.  A
        member is found exactly when an eligible one exists; under positive weights it is
        one that carries the least load per weight, and which of those is settled by the
        rotation and the names alone. */
    method SelectLeastLoaded(present: bool, elig: set<string>, spin: nat -> string) returns (r: Option<Backend>)
      requires Valid()
      ensures r.Some? <==> present && Able(backends, elig) != {}
      ensures r.Some? ==> r.value.name in Able(backends, elig) && backends[r.value.name] == r.value
      ensures r.Some? && Weighted(backends, elig) ==> Chosen(Lightest(backends, inflight, elig), spin, Cycle(backends), r.value.name)
      ensures r.Some? && Positive(backends, elig) == {} ==>
        Chosen(Fewest(backends, inflight, elig), spin, Cycle(backends), r.value.name)
      ensures r.Some? && Positive(backends, elig) != {} ==> exists order | Lists(order, backends.Keys) ::
        Chosen(TiedIn(backends, inflight, elig, order), spin, Cycle(backends), r.value.name)
    {
      if !present || |backends| == 0 {
        return None;
      }
      ghost var order;
      var num, den;
      num, den, order := BestRatio(elig);
      if num < 0 {
        num := BestCount(elig);
        den := 1;
        if num < 0 {
          return None;
        }
        FewestTied(backends, inflight, elig, num);
      } else if Weighted(backends, elig) {
        TiedIsLightest(backends, inflight, elig, num, den);
      }
      SomeTied(backends, inflight, elig, num, den);
      hide Tied, Lightest, Fewest, Chosen, Ratio;
      var tied := CollectTied(elig, num, den);
      TiedAble(backends, inflight, elig, num, den);
      r := PickTied(tied, spin);
    }

    // Eligible sets.

    function TagEligible(tag: string, exclude: set<string>): set<string>
      reads this
    {
      set n | n in backends && tag in EffectiveTags(backends[n]) && n !in exclude
    }

    function ExcludeEligible(exclude: set<string>): set<string>
      reads this
    {
      set n | n in backends && n !in exclude
    }

    method SelectExcluding(exclude: set<string>, spin: nat -> string) returns (r: Option<Backend>)
      requires Valid()
      ensures r.Some? <==> exists n :: n in backends && n !in exclude
      ensures r.Some? ==> r.value.name in backends && r.value.name !in exclude && backends[r.value.name] == r.value
      ensures r.Some? && Weighted(backends, ExcludeEligible(exclude)) ==>
        Chosen(Lightest(backends, inflight, ExcludeEligible(exclude)), spin, Cycle(backends), r.value.name)
    {
      r := SelectLeastLoaded(true, ExcludeEligible(exclude), spin);
      assert forall n :: n in Able(backends, ExcludeEligible(exclude)) <==> n in backends && n !in exclude;
    }

    method SelectFromTagExcluding(tag: string, exclude: set<string>, spin: nat -> string) returns (r: Option<Backend>)
      requires Valid()
      ensures r.Some? <==> exists n :: n in backends && tag in EffectiveTags(backends[n]) && n !in exclude
      ensures r.Some? ==> r.value.name in backends && backends[r.value.name] == r.value
      ensures r.Some? ==> tag in EffectiveTags(r.value) && r.value.name !in exclude
      ensures r.Some? && Weighted(backends, TagEligible(tag, exclude)) ==>
        Chosen(Lightest(backends, inflight, TagEligible(tag, exclude)), spin, Cycle(backends), r.value.name)
    {
      r := SelectLeastLoaded(tag in pools, TagEligible(tag, exclude), spin);
      assert forall n :: n in Able(backends, TagEligible(tag, exclude)) <==>
        n in backends && tag in EffectiveTags(backends[n]) && n !in exclude;
    }

    method GetBackendByModel(id: string) returns (r: Option<Backend>)
      ensures r.Some? <==> TrimSpace(id) in models && models[TrimSpace(id)] in backends
      ensures r.Some? ==> r.value == backends[models[TrimSpace(id)]]
    {
      var key := TrimSpace(id);
      if key !in models || models[key] !in backends {
        return None;
      }
      return Some(backends[models[key]]);
    }
  }

  /** A hit and the fallback are settled by the tied set, the rotation and the bound:
      whatever order the maps were visited in, the same member comes out. */
  lemma ChosenIsUnique(tied: set<string>, spin: nat -> string, tries: nat, a: string, b: string)
    requires Chosen(tied, spin, tries, a) && Chosen(tied, spin, tries, b)
    requires "" !in tied
    ensures a == b
  {
    if Hit(tied, spin, tries, a) && Hit(tied, spin, tries, b) {
      var i :| 0 <= i < tries && spin(i) == a && a in tied && Missed(tied, spin, i);
      var j :| 0 <= j < tries && spin(j) == b && b in tied && Missed(tied, spin, j);
    } else {
      BeforeTotal(a, b);
    }
  }

  lemma {:induction false} BeforeTotal(a: string, b: string)
    ensures a == b || Before(a, b) || Before(b, a)
  {
    if a != "" && b != "" && a[0] == b[0] {
      BeforeTotal(a[1..], b[1..]);
      assert a == [a[0]] + a[1..] && b == [b[0]] + b[1..];
    }
  }
}
