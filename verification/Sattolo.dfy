/**
  Sattolo's shuffle as the pointer-chase benchmark uses it (`build_chase_buffer`,
  AnimusCore_v1/animus_benchmark_suite.cpp:312-329): whatever is drawn, the links form one cycle
  through all nodes. The random draws are an input.
 */
module Sattolo {

  /** Following `p` from each element of `c` gives the next one, and from the last the first. */
  ghost predicate IsCycle(p: seq<nat>, c: seq<nat>) {
    && c != []
    && (forall t :: 0 <= t < |c| ==> c[t] < |p|)
    && (forall t :: 0 <= t < |c| - 1 ==> p[c[t]] == c[t + 1])
    && p[c[|c| - 1]] == c[0]
  }

  ghost predicate Distinct(c: seq<nat>) {
    forall s, t :: 0 <= s < t < |c| ==> c[s] != c[t]
  }

  /** The cycles of `p`: one through each of the first `|cs|` nodes, and no node on two of them. */
  ghost predicate Cycles(p: seq<nat>, cs: seq<seq<nat>>) {
    && (forall k :: 0 <= k < |cs| ==> IsCycle(p, cs[k]) && Distinct(cs[k]) && cs[k][0] == k)
    && (forall k, l, x :: 0 <= k < l < |cs| && x in cs[k] ==> x !in cs[l])
    && (forall x: nat :: x < |p| ==> OnSome(cs, x))
  }

  ghost predicate OnSome(cs: seq<seq<nat>>, x: nat) {
    exists k :: 0 <= k < |cs| && x in cs[k]
  }

  function Swapped(p: seq<nat>, i: nat, j: nat): seq<nat>
    requires i < |p| && j < |p|
  {
    p[i := p[j]][j := p[i]]
  }

  /** The cycle that swapping the links of `a[0]` and `b[0]` makes of `a` and `b`. */
  function Merged(a: seq<nat>, b: seq<nat>): seq<nat>
    requires a != [] && b != []
  {
    [b[0]] + a[1..] + [a[0]] + b[1..]
  }

  /** The merged cycle, place by place. */
  lemma MergedAt(a: seq<nat>, b: seq<nat>, t: nat)
    requires a != [] && b != [] && t < |a| + |b|
    ensures |Merged(a, b)| == |a| + |b|
    ensures Merged(a, b)[t] == if t == 0 then b[0] else if t < |a| then a[t] else if t == |a| then a[0] else b[t - |a|]
  {
  }

  lemma MergedLink(p: seq<nat>, a: seq<nat>, b: seq<nat>, t: nat)
    requires IsCycle(p, a) && IsCycle(p, b) && Distinct(a) && Distinct(b) && (forall x :: x in a ==> x !in b)
    requires t < |a| + |b|
    ensures var m := Merged(a, b);
            |m| == |a| + |b| && m[t] < |p| && Swapped(p, a[0], b[0])[m[t]] == m[if t + 1 < |m| then t + 1 else 0]
  {
    MergedAt(a, b, t);
    MergedAt(a, b, if t + 1 < |a| + |b| then t + 1 else 0);
    hide Merged;
    assert forall k :: 0 <= k < |a| ==> a[k] in a;
    assert forall k :: 0 <= k < |b| ==> b[k] in b;
  }

  lemma MergedDistinct(a: seq<nat>, b: seq<nat>)
    requires a != [] && b != [] && Distinct(a) && Distinct(b) && (forall x :: x in a ==> x !in b)
    ensures Distinct(Merged(a, b))
  {
    assert forall k :: 0 <= k < |a| ==> a[k] in a;
    assert forall k :: 0 <= k < |b| ==> b[k] in b;
    var m := Merged(a, b);
    forall s, t | 0 <= s < t < |m| ensures m[s] != m[t] {
      MergedAt(a, b, s);
      MergedAt(a, b, t);
    }
  }

  lemma MergedIsCycle(p: seq<nat>, a: seq<nat>, b: seq<nat>)
    requires IsCycle(p, a) && IsCycle(p, b) && Distinct(a) && Distinct(b) && (forall x :: x in a ==> x !in b)
    ensures IsCycle(Swapped(p, a[0], b[0]), Merged(a, b)) && Distinct(Merged(a, b)) && Merged(a, b)[0] == b[0]
    ensures forall x :: x in Merged(a, b) <==> x in a || x in b
  {
    MergedHolds(a, b);
    MergedDistinct(a, b);
    MergedAt(a, b, 0);
    var m, p' := Merged(a, b), Swapped(p, a[0], b[0]);
    forall t: nat | t < |m| ensures m[t] < |p| && p'[m[t]] == m[if t + 1 < |m| then t + 1 else 0] {
      MergedAt(a, b, 0);
      MergedLink(p, a, b, t);
    }
    hide Merged, Swapped, Distinct;
  }

  lemma MergedHolds(a: seq<nat>, b: seq<nat>)
    requires a != [] && b != []
    ensures forall x :: x in Merged(a, b) <==> x in a || x in b
  {
    assert a == [a[0]] + a[1..] && b == [b[0]] + b[1..];
  }

  lemma OtherCycle(p: seq<nat>, c: seq<nat>, i: nat, j: nat)
    requires IsCycle(p, c) && i < |p| && j < |p| && i !in c && j !in c
    ensures IsCycle(Swapped(p, i, j), c)
  {
    assert forall t :: 0 <= t < |c| ==> c[t] in c;
  }

  /** The cycles after the step that swaps `i`, the last node with a cycle of its own, with `j`. */
  function Joined(cs: seq<seq<nat>>, j: nat): seq<seq<nat>>
    requires j + 1 < |cs| && cs[j] != [] && cs[|cs| - 1] != []
  {
    cs[..|cs| - 1][j := Merged(cs[|cs| - 1], cs[j])]
  }

  lemma JoinedCovers(p: seq<nat>, cs: seq<seq<nat>>, j: nat)
    requires Cycles(p, cs) && j + 1 < |cs|
    ensures forall x: nat :: x < |p| ==> OnSome(Joined(cs, j), x)
  {
    var i := |cs| - 1;
    MergedHolds(cs[i], cs[j]);
    hide IsCycle, Distinct, Merged;
    forall x: nat | x < |p| ensures OnSome(Joined(cs, j), x) {
      assert OnSome(cs, x);
      var k :| 0 <= k < |cs| && x in cs[k];
      assert x in Joined(cs, j)[if k == i then j else k];
    }
  }

  lemma JoinedApart(p: seq<nat>, cs: seq<seq<nat>>, j: nat, k: nat, l: nat, x: nat)
    requires Cycles(p, cs) && j + 1 < |cs| && k < l < |cs| - 1 && x in Joined(cs, j)[k]
    ensures x !in Joined(cs, j)[l]
  {
    MergedHolds(cs[|cs| - 1], cs[j]);
    hide IsCycle, Distinct, Merged, OnSome;
  }

  lemma JoinedCycle(p: seq<nat>, cs: seq<seq<nat>>, j: nat, k: nat)
    requires Cycles(p, cs) && j + 1 < |cs| <= |p| && k < |cs| - 1
    ensures var c := Joined(cs, j)[k]; IsCycle(Swapped(p, |cs| - 1, j), c) && Distinct(c) && c[0] == k
  {
    var i := |cs| - 1;
    assert cs[i][0] in cs[i] && cs[j][0] in cs[j];
    if k == j {
      MergedIsCycle(p, cs[i], cs[j]);
    } else {
      OtherCycle(p, cs[k], i, j);
    }
  }

  lemma SwapJoins(p: seq<nat>, cs: seq<seq<nat>>, j: nat)
    requires Cycles(p, cs) && j + 1 < |cs| <= |p|
    ensures Cycles(Swapped(p, |cs| - 1, j), Joined(cs, j))
  {
    JoinedCovers(p, cs, j);
    var p', cs' := Swapped(p, |cs| - 1, j), Joined(cs, j);
    forall k | 0 <= k < |cs'| ensures IsCycle(p', cs'[k]) && Distinct(cs'[k]) && cs'[k][0] == k {
      JoinedCycle(p, cs, j, k);
    }
    hide IsCycle, Distinct, Merged, OnSome;
    forall k, l, x | 0 <= k < l < |cs'| && x in cs'[k] ensures x !in cs'[l] {
      JoinedApart(p, cs, j, k, l, x);
    }
  }

  // ------------------------------------------------------------- walking

  /** The node reached from node 0 after `k` links. */
  function Walk(next: seq<nat>, k: nat): nat {
    if k == 0 then 0
    else
      var at := Walk(next, k - 1);
      if at < |next| then next[at] else at
  }

  /** Every node is visited exactly once before the walk is back at node 0. */
  ghost predicate SingleCycle(next: seq<nat>) {
    && Walk(next, |next|) == 0
    && (forall j: nat, k: nat :: j < k < |next| ==> Walk(next, j) != Walk(next, k))
    && (forall x: nat :: x < |next| ==> Visited(next, x))
  }

  ghost predicate Visited(next: seq<nat>, x: nat) {
    exists k: nat :: k < |next| && Walk(next, k) == x
  }

  lemma {:induction false} WalkFollows(p: seq<nat>, c: seq<nat>, k: nat)
    requires IsCycle(p, c) && c[0] == 0 && k <= |c|
    ensures Walk(p, k) == if k < |c| then c[k] else 0
    decreases k
  {
    if k > 0 { WalkFollows(p, c, k - 1); }
  }

  function Elements(c: seq<nat>): set<nat> { if c == [] then {} else Elements(c[..|c| - 1]) + {c[|c| - 1]} }

  function Below(n: nat): set<nat> { if n == 0 then {} else Below(n - 1) + {n - 1} }

  lemma {:induction false} ElementsSize(c: seq<nat>)
    requires Distinct(c)
    ensures |Elements(c)| == |c| && forall x: nat :: x in Elements(c) <==> x in c
    decreases |c|
  {
    if c != [] {
      var k := |c| - 1;
      ElementsSize(c[..k]);
      assert c == c[..k] + [c[k]];
      assert c[k] !in c[..k];
    }
  }

  lemma {:induction false} BelowSize(n: nat)
    ensures |Below(n)| == n && forall x: nat :: x in Below(n) <==> x < n
    decreases n
  {
    if n > 0 { BelowSize(n - 1); }
  }

  lemma OneCycleCovers(p: seq<nat>, cs: seq<seq<nat>>)
    requires Cycles(p, cs) && |cs| == 1
    ensures |cs[0]| == |p| && forall x: nat :: x < |p| ==> x in cs[0]
  {
    var c := cs[0];
    forall x: nat | x < |p| ensures x in c { assert OnSome(cs, x); }
    ElementsSize(c);
    BelowSize(|p|);
    assert Elements(c) == Below(|p|);
  }

  lemma OneCycleIsAll(p: seq<nat>, cs: seq<seq<nat>>)
    requires Cycles(p, cs) && |cs| == 1
    ensures SingleCycle(p)
  {
    var c := cs[0];
    OneCycleCovers(p, cs);
    forall k: nat | k <= |c| ensures Walk(p, k) == if k < |c| then c[k] else 0 { WalkFollows(p, c, k); }
    hide IsCycle, Walk, OnSome;
    forall x: nat | x < |p| ensures Visited(p, x) {
      assert x in c;
      var k: nat :| k < |c| && c[k] == x;
      assert Walk(p, k) == x;
    }
  }

  // --------------------------------------------------------------- draws

  ghost predicate Valid(draws: seq<nat>) {
    forall i :: 0 < i < |draws| ==> draws[i] < i
  }

  function Identity(n: nat): seq<nat> { seq(n, k requires 0 <= k => k) }

  /** The permutation after the steps from `|p| - 1` down to `i + 1`. */
  function Shuffled(draws: seq<nat>, i: nat): (p: seq<nat>)
    requires i < |draws| && forall k :: 0 < k < |draws| ==> draws[k] < k
    ensures |p| == |draws|
    decreases |draws| - i
  {
    if i + 1 == |draws| then Identity(|draws|)
    else Swapped(Shuffled(draws, i + 1), i + 1, draws[i + 1])
  }

  lemma SwapKeepsDistinct(p: seq<nat>, i: nat, j: nat)
    requires i < |p| && j < |p| && Distinct(p)
    ensures Distinct(Swapped(p, i, j))
  {
  }

  lemma {:induction false} ShuffledDistinct(draws: seq<nat>, i: nat)
    requires i < |draws| && Valid(draws)
    ensures Distinct(Shuffled(draws, i))
    decreases |draws| - i
  {
    if i + 1 < |draws| {
      ShuffledDistinct(draws, i + 1);
      SwapKeepsDistinct(Shuffled(draws, i + 1), i + 1, draws[i + 1]);
    }
  }

  /** A step settles its place: later steps only touch lower ones. */
  lemma {:induction false} StepSettles(draws: seq<nat>, i: nat, k: nat)
    requires k < i < |draws| && Valid(draws)
    ensures Shuffled(draws, k)[i] == Shuffled(draws, i - 1)[i]
    decreases i - k
  {
    if k < i - 1 { StepSettles(draws, i, k + 1); }
  }

  /** The draws can be read off the links: shuffles that end alike have gone alike all the way. */
  lemma {:induction false} SameDraws(a: seq<nat>, b: seq<nat>, i: nat)
    requires |a| == |b| > i && Valid(a) && Valid(b) && Shuffled(a, 0) == Shuffled(b, 0)
    ensures Shuffled(a, i) == Shuffled(b, i) && a[i + 1..] == b[i + 1..]
    decreases |a| - i
  {
    if i + 1 < |a| {
      SameDraws(a, b, i + 1);
      StepSettles(a, i + 1, 0);
      StepSettles(b, i + 1, 0);
      ShuffledDistinct(a, i + 1);
      var p := Shuffled(a, i + 1);
      assert p[a[i + 1]] == Shuffled(a, 0)[i + 1] == p[b[i + 1]];
      assert a[i + 1..] == [a[i + 1]] + a[i + 2..] && b[i + 1..] == [b[i + 1]] + b[i + 2..];
    }
  }

  /** Different draws give different cycles; the first draw is never used. */
  lemma DifferentDraws(a: seq<nat>, b: seq<nat>)
    requires |a| == |b| > 0 && Valid(a) && Valid(b)
    ensures Shuffled(a, 0) == Shuffled(b, 0) <==> a[1..] == b[1..]
  {
    if Shuffled(a, 0) == Shuffled(b, 0) { SameDraws(a, b, 0); }
    if a[1..] == b[1..] { SameShuffle(a, b, 0); }
  }

  lemma {:induction false} SameShuffle(a: seq<nat>, b: seq<nat>, i: nat)
    requires |a| == |b| > i && Valid(a) && Valid(b) && a[1..] == b[1..]
    ensures Shuffled(a, i) == Shuffled(b, i)
    decreases |a| - i
  {
    if i + 1 < |a| {
      SameShuffle(a, b, i + 1);
      assert a[1..][i] == b[1..][i];
    }
  }

  // ------------------------------------------------------------- building

  lemma IdentityCycles(p: seq<nat>, cs: seq<seq<nat>>)
    requires |cs| == |p| && forall k :: 0 <= k < |p| ==> p[k] == k && cs[k] == [k]
    ensures Cycles(p, cs)
  {
    forall x: nat | x < |p| ensures OnSome(cs, x) { assert x in cs[x]; }
  }

  /** Node `i`'s link is `next[i]`; `draws[i]` is what the generator gives for step `i`. */
  method BuildChaseBuffer(numNodes: nat, draws: seq<nat>) returns (next: array<nat>)
    requires numNodes >= 1 && |draws| == numNodes && forall i :: 0 < i < numNodes ==> draws[i] < i
    ensures fresh(next) && next.Length == numNodes && next[..] == Shuffled(draws, 0) && SingleCycle(next[..])
  {
    var perm := new nat[numNodes];
    for i := 0 to numNodes
      invariant forall k :: 0 <= k < i ==> perm[k] == k
    {
      perm[i] := i;
    }
    ghost var cs: seq<seq<nat>> := seq(numNodes, k requires 0 <= k => [k]);
    IdentityCycles(perm[..], cs);
    assert perm[..] == Identity(numNodes);
    var i := numNodes - 1;
    while i > 0
      invariant 0 <= i < numNodes && |cs| == i + 1 && Cycles(perm[..], cs) && perm[..] == Shuffled(draws, i)
    {
      var j := draws[i];
      SwapJoins(perm[..], cs, j);
      ghost var before := perm[..];
      perm[i], perm[j] := perm[j], perm[i];
      assert perm[..] == Swapped(before, i, j);
      cs := Joined(cs, j);
      i := i - 1;
    }
    OneCycleIsAll(perm[..], cs);
    ghost var links := perm[..];
    next := new nat[numNodes];
    for k := 0 to numNodes
      invariant perm[..] == links
      invariant forall l :: 0 <= l < k ==> next[l] == perm[l]
    {
      next[k] := perm[k];
    }
    assert next[..] == links;
  }
}
