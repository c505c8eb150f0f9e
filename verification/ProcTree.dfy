/** Collecting and signalling a process tree (internal/scheduler/procresolve.go), over one
    fixed snapshot of the process table. */
module ProcTree {

  /** The numeric entries of /proc in directory order, and each one's parent as its stat
      file gives it. */
  datatype Table = Table(dir: seq<int>, ppid: map<int, int>) {
    /** statPPID: 0 for a process that is gone. */
    function Parent(pid: int): int { if pid in ppid then ppid[pid] else 0 }
  }

  /** p is root, or n generations below it. */
  ghost predicate Below(t: Table, root: int, p: int, n: nat)
    decreases n
  {
    if n == 0 then p == root else p in t.dir && Below(t, root, t.Parent(p), n - 1)
  }

  ghost predicate InTree(t: Table, root: int, p: int) {
    exists n: nat :: Below(t, root, p, n)
  }

  ghost predicate Distinct(s: seq<int>) {
    forall i, j :: 0 <= i < j < |s| ==> s[i] != s[j]
  }

  /** Everyone but the first comes after its parent. */
  ghost predicate ParentsFirst(t: Table, s: seq<int>) {
    forall j | 0 < j < |s| :: t.Parent(s[j]) in s[..j]
  }

  ghost predicate IsChild(t: Table, parent: int, p: int) {
    p in t.dir && t.Parent(p) == parent
  }

  /** processChildren: one pass over the directory. */
  method ProcessChildren(t: Table, parent: int) returns (out: seq<int>)
    ensures forall p :: p in out <==> IsChild(t, parent, p)
  {
    out := [];
    for i := 0 to |t.dir|
      invariant forall p :: p in out <==> p in t.dir[..i] && t.Parent(p) == parent
    {
      if t.Parent(t.dir[i]) == parent {
        out := out + [t.dir[i]];
      }
    }
  }

  lemma ChildInTree(t: Table, root: int, parent: int, p: int)
    requires InTree(t, root, parent) && IsChild(t, parent, p)
    ensures InTree(t, root, p)
  {
    var n: nat :| Below(t, root, parent, n);
    assert Below(t, root, p, n + 1);
  }

  /** A list that holds root and the children of its members holds the whole tree. */
  lemma {:induction false} ClosedHoldsTree(t: Table, root: int, s: seq<int>, p: int, n: nat)
    requires root in s && Below(t, root, p, n)
    requires forall q, c :: q in s && IsChild(t, q, c) ==> c in s
    ensures p in s
    decreases n
  {
    if n > 0 {
      ClosedHoldsTree(t, root, s, t.Parent(p), n - 1);
      assert IsChild(t, t.Parent(p), p);
    }
  }

  /** A list grown from root alone, each step adding a new child of a member. */
  ghost predicate Grown(t: Table, root: int, out: seq<int>)
    decreases |out|
  {
    if |out| <= 1 then out == [root]
    else
      var met, p := out[..|out| - 1], out[|out| - 1];
      Grown(t, root, met) && p in t.dir && t.Parent(p) in met && p !in met
  }

  lemma GrownByOne(t: Table, root: int, out: seq<int>, parent: int, p: int)
    requires Grown(t, root, out) && parent in out && IsChild(t, parent, p) && p !in out
    ensures Grown(t, root, out + [p])
  {
    assert (out + [p])[..|out|] == out;
  }

  /** Such a list starts with root and lists nobody twice or before its parent. */
  lemma {:induction false} GrownIsOrdered(t: Table, root: int, out: seq<int>)
    requires Grown(t, root, out)
    ensures out != [] && out[0] == root && Distinct(out) && ParentsFirst(t, out)
    decreases |out|
  {
    if |out| > 1 {
      var met, p := out[..|out| - 1], out[|out| - 1];
      GrownIsOrdered(t, root, met);
      OrderedByOne(t, met, p);
      assert out == met + [p];
    }
  }

  lemma OrderedByOne(t: Table, met: seq<int>, p: int)
    requires met != [] && Distinct(met) && ParentsFirst(t, met) && t.Parent(p) in met && p !in met
    ensures Distinct(met + [p]) && ParentsFirst(t, met + [p])
  {
    forall j | 0 < j <= |met| ensures (met + [p])[..j] == met[..j] {
    }
  }

  /** And it stays within the tree. */
  lemma {:induction false} GrownInTree(t: Table, root: int, out: seq<int>, q: int)
    requires Grown(t, root, out) && q in out
    ensures InTree(t, root, q)
    decreases |out|
  {
    if |out| <= 1 {
      assert Below(t, root, root, 0);
    } else {
      var met, p := out[..|out| - 1], out[|out| - 1];
      if q in met {
        GrownInTree(t, root, met, q);
      } else {
        GrownInTree(t, root, met, t.Parent(p));
        ChildInTree(t, root, t.Parent(p), p);
      }
    }
  }

  /** The entries the breadth-first search has not met yet. */
  ghost function Unmet(t: Table, out: seq<int>): set<int> {
    set p | p in t.dir && p !in out
  }

  lemma UnmetShrinks(t: Table, out: seq<int>, p: int)
    requires p in t.dir && p !in out
    ensures Unmet(t, out + [p]) < Unmet(t, out)
  {
    assert p in Unmet(t, out) && p !in Unmet(t, out + [p]);
  }

  /** One round of the search: the children of cur that are new join both lists. */
  method Visit(t: Table, root: int, cur: int, out0: seq<int>, queue0: seq<int>)
      returns (out: seq<int>, queue: seq<int>, ghost added: seq<int>)
    requires Grown(t, root, out0) && cur in out0
    ensures Grown(t, root, out)
    ensures out == out0 + added && queue == queue0 + added
    ensures forall c :: IsChild(t, cur, c) ==> c in out
    ensures added == [] || Unmet(t, out) < Unmet(t, out0)
  {
    hide Grown, InTree, Unmet;
    out, queue, added := out0, queue0, [];
    var children := ProcessChildren(t, cur);
    for i := 0 to |children|
      invariant Grown(t, root, out)
      invariant out == out0 + added && queue == queue0 + added
      invariant forall c :: c in children[..i] ==> c in out
      invariant added == [] || Unmet(t, out) < Unmet(t, out0)
    {
      var child := children[i];
      assert children[..i + 1] == children[..i] + [child];
      if child !in out {
        GrownByOne(t, root, out, cur, child);
        UnmetShrinks(t, out, child);
        out := out + [child];
        queue := queue + [child];
        added := added + [child];
      }
    }
    assert children[..|children|] == children;
  }

  /** The children of the processes already taken off the queue have been met. */
  ghost predicate Closed(t: Table, done: seq<int>, out: seq<int>) {
    forall q, c :: q in done && IsChild(t, q, c) ==> c in out
  }

  lemma ClosedGrows(t: Table, done: seq<int>, out: seq<int>, cur: int, added: seq<int>)
    requires Closed(t, done, out) && forall c :: IsChild(t, cur, c) ==> c in out + added
    ensures Closed(t, done + [cur], out + added)
  {
  }

  lemma ClosedIsTree(t: Table, root: int, out: seq<int>)
    requires Grown(t, root, out) && Closed(t, out, out)
    ensures forall p :: p in out <==> InTree(t, root, p)
  {
    forall p | p in out ensures InTree(t, root, p) {
      GrownInTree(t, root, out, p);
    }
    GrownIsOrdered(t, root, out);
    forall p | InTree(t, root, p) ensures p in out {
      var n: nat :| Below(t, root, p, n);
      ClosedHoldsTree(t, root, out, p, n);
    }
  }

  lemma RootAlone(t: Table, root: int)
    ensures Grown(t, root, [root]) && Closed(t, [], [root])
  {
  }

  /** collectTree: root and its descendants, each once, every process after its parent.
      The table may contain cycles. */
  method CollectTree(t: Table, root: int) returns (out: seq<int>)
    ensures out != [] && out[0] == root
    ensures forall p :: p in out <==> InTree(t, root, p)
    ensures Distinct(out) && ParentsFirst(t, out)
  {
    hide Grown, Closed, InTree, Unmet, Distinct, ParentsFirst;
    out := [root];
    var queue := [root];
    ghost var done := [];
    RootAlone(t, root);
    while queue != []
      invariant Grown(t, root, out)
      invariant out == done + queue
      invariant Closed(t, done, out)
      decreases Unmet(t, out), |queue|
    {
      ghost var added, met := [], out;
      var cur := queue[0];
      assert cur in out;
      out, queue, added := Visit(t, root, cur, out, queue[1..]);
      assert added == [] ==> out == met;
      ClosedGrows(t, done, met, cur, added);
      done := done + [cur];
    }
    assert out == done;
    ClosedIsTree(t, root, out);
    GrownIsOrdered(t, root, out);
  }

  /** A signal to a whole process group, or to one process. */
  datatype Signal = ToGroup(leader: int) | To(pid: int)

  /** killTree: a group leader's group is signalled as one; otherwise every process of the
      tree is signalled once, the root last and among the rest parents first; a process
      that is gone gets nothing. */
  method KillTree(t: Table, alive: bool, pid: int, group: int) returns (sent: seq<Signal>)
    ensures !alive ==> sent == []
    ensures alive && group == pid ==> sent == [ToGroup(pid)]
    ensures alive && group != pid ==>
      && (forall p :: To(p) in sent <==> InTree(t, pid, p))
      && (forall s :: s in sent ==> s.To?)
      && (forall i, j :: 0 <= i < j < |sent| ==> sent[i] != sent[j])
      && sent != [] && sent[|sent| - 1] == To(pid)
      && forall j | 0 <= j < |sent| - 1 :: t.Parent(sent[j].pid) == pid || To(t.Parent(sent[j].pid)) in sent[..j]
  {
    sent := [];
    if !alive {
      return;
    }
    if group == pid {
      return [ToGroup(pid)];
    }
    var found := CollectTree(t, pid);
    for i := 0 to |found|
      invariant i == 0 ==> sent == []
      invariant i > 0 ==> |sent| == i - 1 && forall k | 0 <= k < i - 1 :: sent[k] == To(found[k + 1])
    {
      if found[i] != pid {
        sent := sent + [To(found[i])];
      }
    }
    forall j | 0 <= j < |sent| ensures t.Parent(sent[j].pid) == pid || To(t.Parent(sent[j].pid)) in sent[..j] {
      var k :| 0 <= k < j + 1 && found[k] == t.Parent(found[j + 1]);
      if k > 0 {
        assert sent[..j][k - 1] == To(found[k]);
      }
    }
    ghost var rest := sent;
    sent := sent + [To(pid)];
    forall p ensures To(p) in sent <==> p in found {
      if p in found && p != pid {
        var k :| 0 <= k < |found| && found[k] == p;
        assert rest[k - 1] == To(p);
      }
    }
    forall j | 0 <= j < |sent| - 1 ensures sent[..j] == rest[..j] {
    }
  }
}
