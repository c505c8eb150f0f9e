/** Strings as the Go sources see them: white space and trimming. */
module Text {

  datatype Option<+T> = None | Some(value: T)

  /** The code points Go's unicode.IsSpace accepts. */
  predicate IsSpace(c: char) {
    var n := c as int;
    || 9 <= n <= 13 || n == 32 || n == 0x85 || n == 0xA0 || n == 0x1680
    || 0x2000 <= n <= 0x200A || n == 0x2028 || n == 0x2029 || n == 0x202F || n == 0x205F || n == 0x3000
  }

  /** The first index from i on that holds no white space. */
  function Lead(s: string, i: nat): nat
    requires i <= |s|
    ensures i <= Lead(s, i) <= |s|
    decreases |s| - i
  {
    if i < |s| && IsSpace(s[i]) then Lead(s, i + 1) else i
  }

  /** The end of s[lo..hi] once white space is taken off the right. */
  function Trail(s: string, lo: nat, hi: nat): nat
    requires lo <= hi <= |s|
    ensures lo <= Trail(s, lo, hi) <= hi
  {
    if lo < hi && IsSpace(s[hi - 1]) then Trail(s, lo, hi - 1) else hi
  }

  /** strings.TrimSpace. */
  function TrimSpace(s: string): string {
    var lo := Lead(s, 0);
    s[lo..Trail(s, lo, |s|)]
  }

  lemma {:induction false} LeadStops(s: string, i: nat)
    requires i <= |s|
    ensures Lead(s, i) < |s| ==> !IsSpace(s[Lead(s, i)])
    ensures forall k :: i <= k < Lead(s, i) ==> IsSpace(s[k])
    decreases |s| - i
  {
    if i < |s| && IsSpace(s[i]) {
      LeadStops(s, i + 1);
    }
  }

  lemma {:induction false} TrailStops(s: string, lo: nat, hi: nat)
    requires lo <= hi <= |s|
    ensures lo < Trail(s, lo, hi) ==> !IsSpace(s[Trail(s, lo, hi) - 1])
    ensures forall k :: Trail(s, lo, hi) <= k < hi ==> IsSpace(s[k])
  {
    if lo < hi && IsSpace(s[hi - 1]) {
      TrailStops(s, lo, hi - 1);
    }
  }

  ghost predicate NoEdgeSpace(s: string) {
    s == "" || (!IsSpace(s[0]) && !IsSpace(s[|s| - 1]))
  }

  /** Trimming takes white space off both edges and nothing else, and a string is its own
      trim exactly when it has none there. */
  lemma TrimSpaceTrims(s: string)
    ensures NoEdgeSpace(TrimSpace(s))
    ensures exists lo, hi | 0 <= lo <= hi <= |s| ::
      TrimSpace(s) == s[lo..hi] && forall k | 0 <= k < lo || hi <= k < |s| :: IsSpace(s[k])
    ensures TrimSpace(s) == s <==> NoEdgeSpace(s)
  {
    var lo := Lead(s, 0);
    var hi := Trail(s, lo, |s|);
    LeadStops(s, 0);
    TrailStops(s, lo, |s|);
    assert TrimSpace(s) == s[lo..hi];
  }

  lemma {:induction false} LeadSkips(s: string, i: nat)
    requires i <= |s| && forall k | i <= k < |s| :: IsSpace(s[k])
    ensures Lead(s, i) == |s|
    decreases |s| - i
  {
    if i < |s| {
      LeadSkips(s, i + 1);
    }
  }

  /** A blank at the end is taken off again. */
  lemma TrimBlank(s: string)
    requires NoEdgeSpace(s)
    ensures TrimSpace(s + " ") == s
  {
    var t := s + " ";
    if s == "" {
      LeadSkips(t, 0);
    } else {
      assert t[0] == s[0] && t[|s| - 1] == s[|s| - 1] && t[|s|] == ' ';
      assert Lead(t, 0) == 0;
      assert Trail(t, 0, |t|) == Trail(t, 0, |s|) == |s|;
    }
  }
}
