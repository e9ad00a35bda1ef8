/** Drawing distinct positions (mine cells, egg doors) from a stream of
    uniform draws, and the counting facts the games rely on. */
module Sampling {

  /** No position occurs twice. */
  predicate Distinct(s: seq<int>) {
    forall i, j :: 0 <= i < j < |s| ==> s[i] != s[j]
  }

  /** Every position lies in [0, n). */
  predicate InRange(s: seq<int>, n: int) {
    forall i :: 0 <= i < |s| ==> 0 <= s[i] < n
  }

  /** `s` is what the rejection-sampling loops commit: `count` distinct
      positions out of [0, n). */
  predicate IsSample(s: seq<int>, count: int, n: int) {
    |s| == count && Distinct(s) && InRange(s, n)
  }

  function Elements(s: seq<int>): set<int> {
    set x | x in s
  }

  /** The positions 0, 1, ..., n - 1. */
  function Below(n: nat): (r: set<int>)
    ensures forall x :: x in r <==> 0 <= x < n
  {
    if n == 0 then {} else Below(n - 1) + {n - 1}
  }

  /** The draws with every repeat dropped: the first occurrence of each
      position, in the order drawn. */
  function Dedup(s: seq<int>): (r: seq<int>)
    ensures Distinct(r)
    ensures forall x :: x in r <==> x in s
  {
    if s == [] then []
    else
      var p := Dedup(s[..|s| - 1]);
      if s[|s| - 1] in p then p else p + [s[|s| - 1]]
  }

  /** Deduplicating a prefix of the draws gives a prefix of the deduplicated
      draws: later draws only add positions at the end. */
  lemma {:induction false} DedupPrefix(s: seq<int>, k: nat)
    requires k <= |s|
    ensures Dedup(s[..k]) <= Dedup(s)
    decreases |s| - k
  {
    if k < |s| {
      var t := s[..|s| - 1];
      assert t[..k] == s[..k];
      DedupPrefix(t, k);
      assert Dedup(t) <= Dedup(s);
    } else {
      assert s[..k] == s;
    }
  }

  /** The rejection-sampling loop run over a finite stream of draws
      `Math.floor(Math.random() * n)`: a draw already taken is skipped, and
      the loop stops once `count` positions are taken. The source loops
      until it succeeds; here the stream may run dry, which `complete`
      reports. */
  method DrawDistinct(draws: seq<int>, count: nat, n: int) returns (picked: seq<int>, complete: bool)
    requires InRange(draws, n)
    ensures var d := Dedup(draws); picked == if |d| <= count then d else d[..count]
    ensures Distinct(picked) && InRange(picked, n) && |picked| <= count
    ensures forall x :: x in picked ==> x in draws
    ensures complete <==> |picked| == count
    ensures !complete ==> forall x :: x in draws ==> x in picked
  {
    picked := [];
    var k := 0;
    while |picked| < count && k < |draws|
      invariant 0 <= k <= |draws|
      invariant picked == Dedup(draws[..k])
      invariant InRange(picked, n) && |picked| <= count
    {
      var pos := draws[k];
      assert draws[..k + 1][..k] == draws[..k];
      if pos !in picked {
        picked := picked + [pos];
      }
      k := k + 1;
    }
    DedupPrefix(draws, k);
    assert draws[..|draws|] == draws;
    complete := |picked| == count;
  }

  lemma {:induction false} DistinctElements(s: seq<int>)
    requires Distinct(s)
    ensures |Elements(s)| == |s|
  {
    if s != [] {
      var t := s[..|s| - 1];
      assert Distinct(t);
      DistinctElements(t);
      assert Elements(s) == Elements(t) + {s[|s| - 1]};
      assert s[|s| - 1] !in Elements(t);
    }
  }

  lemma {:induction false} BelowSize(n: nat)
    ensures |Below(n)| == n
  {
    if n > 0 {
      var prev := Below(n - 1);
      BelowSize(n - 1);
      assert n - 1 !in prev;
      assert Below(n) == prev + {n - 1};
    }
  }

  /** Two samples from [0, n) with no position in common fit into [0, n)
      together: `|a| + |b| <= n`. */
  lemma DisjointSamplesFit(a: seq<int>, b: seq<int>, n: nat)
    requires Distinct(a) && InRange(a, n)
    requires Distinct(b) && InRange(b, n)
    requires forall x :: x in a ==> x !in b
    ensures |a| + |b| <= n
  {
    DistinctElements(a);
    DistinctElements(b);
    BelowSize(n);
    var u := Elements(a) + Elements(b);
    assert Elements(a) !! Elements(b);
    assert u <= Below(n);
    SubsetSize(u, Below(n));
  }

  lemma {:induction false} SubsetSize(a: set<int>, b: set<int>)
    requires a <= b
    ensures |a| <= |b|
  {
    assert b == a + (b - a);
    assert a * (b - a) == {};
  }
}
