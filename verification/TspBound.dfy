/** The lower bound of a partial tour, and the branch that completes a tour with one node missing. */
module TspBound {
  import opened TspTours

  const BIGINT := 2000000

  // ---------------------------------------------------------------- the two cheapest edges

  /** An edge from the unvisited node i to j may still be used: j is unvisited or an end of p. */
  predicate Usable(w: seq<seq<nat>>, p: seq<nat>, i: nat, j: nat)
    requires RealPath(w, p) && i < |w| && j < |w|
  {
    w[i][j] != 0 && (j !in p || j == p[0] || j == p[|p| - 1])
  }

  datatype Two = Two(wt1: nat, wt2: nat)

  /** One turn of the inner loop. */
  function Lighter(t: Two, wt: nat): (r: Two) {
    if wt < t.wt1 then Two(wt, t.wt1) else if wt < t.wt2 then Two(t.wt1, wt) else t
  }

  /** The two lowest weights of usable edges from i to nodes below j; BIGINT stands for none. */
  function Cheapest(w: seq<seq<nat>>, p: seq<nat>, i: nat, j: nat): (t: Two)
    requires RealPath(w, p) && i < |w| && j <= |w|
  {
    if j == 0 then Two(BIGINT, BIGINT)
    else
      var t := Cheapest(w, p, i, j - 1);
      if Usable(w, p, i, j - 1) then Lighter(t, w[i][j - 1]) else t
  }

  /** The pair is a real one: each weight below BIGINT is that of a usable edge, and not of the same. */
  lemma {:induction false} CheapestIsReal(w: seq<seq<nat>>, p: seq<nat>, i: nat, j: nat) returns (a: nat, b: nat)
    requires RealPath(w, p) && i < |w| && j <= |w|
    ensures var t := Cheapest(w, p, i, j);
      && (t.wt1 < BIGINT ==> a < j && Usable(w, p, i, a) && w[i][a] == t.wt1)
      && (t.wt2 < BIGINT ==> t.wt1 < BIGINT && a != b && b < j && Usable(w, p, i, b) && w[i][b] == t.wt2)
  {
    a, b := 0, 0;
    if j > 0 {
      a, b := CheapestIsReal(w, p, i, j - 1);
      var t, wt := Cheapest(w, p, i, j - 1), w[i][j - 1];
      if Usable(w, p, i, j - 1) {
        if wt < t.wt1 { a, b := j - 1, a; } else if wt < t.wt2 { b := j - 1; }
      }
    }
  }

  /** No two different usable edges from i are cheaper than the pair. */
  lemma {:induction false} CheapestIsLeast(w: seq<seq<nat>>, p: seq<nat>, i: nat, j: nat)
    requires RealPath(w, p) && i < |w| && j <= |w|
    ensures var t := Cheapest(w, p, i, j);
      && t.wt1 <= t.wt2 <= BIGINT
      && (forall a :: 0 <= a < j && Usable(w, p, i, a) ==> t.wt1 <= w[i][a])
      && (forall a, b :: 0 <= a < b < j && Usable(w, p, i, a) && Usable(w, p, i, b) ==>
        t.wt2 <= w[i][a] || t.wt2 <= w[i][b])
  {
    if j > 0 {
      CheapestIsLeast(w, p, i, j - 1);
    }
  }

  /** What node i adds to the bound. */
  function Term(w: seq<seq<nat>>, p: seq<nat>, i: nat): (r: nat)
    requires RealPath(w, p) && i < |w|
  {
    var t := Cheapest(w, p, i, |w|);
    if t.wt2 != BIGINT then (t.wt1 + t.wt2) / 2 else if t.wt1 != BIGINT then t.wt1 else 0
  }

  /** A node that has two usable edges adds at most half of what they weigh. */
  lemma TermAtMost(w: seq<seq<nat>>, p: seq<nat>, i: nat, a: nat, b: nat)
    requires RealPath(w, p) && i < |w| && a < |w| && b < |w| && a != b
    requires Usable(w, p, i, a) && Usable(w, p, i, b) && w[i][a] < BIGINT && w[i][b] < BIGINT
    ensures 2 * Term(w, p, i) <= w[i][a] + w[i][b]
  {
    CheapestIsLeast(w, p, i, |w|);
  }

  // what a node adds, told by its edges

  /** An edge from i to a node that is not inside p, not as heavy as "none". */
  predicate Light(w: seq<seq<nat>>, p: seq<nat>, i: nat, j: nat)
    requires RealPath(w, p) && i < |w|
  {
    j < |w| && 0 < w[i][j] < BIGINT && forall k :: 0 < k < |p| - 1 ==> p[k] != j
  }

  /** The loop's test takes these and no others. */
  lemma LightIsUsable(w: seq<seq<nat>>, p: seq<nat>, i: nat)
    requires RealPath(w, p) && i < |w|
    ensures forall j: nat :: Light(w, p, i, j) <==> j < |w| && w[i][j] < BIGINT && Usable(w, p, i, j)
  {
    forall j: nat | j < |w| && j in p ensures (forall k :: 0 < k < |p| - 1 ==> p[k] != j) <==> j == p[0] || j == p[|p| - 1] {
      var k :| 0 <= k < |p| && p[k] == j;
    }
  }

  /** No two light edges of i weigh less together than those to a and b. */
  ghost predicate LightestTwo(w: seq<seq<nat>>, p: seq<nat>, i: nat, a: nat, b: nat)
    requires RealPath(w, p) && i < |w|
  {
    && a != b && Light(w, p, i, a) && Light(w, p, i, b)
    && forall k: nat, m: nat :: k != m && Light(w, p, i, k) && Light(w, p, i, m) ==> w[i][a] + w[i][b] <= w[i][k] + w[i][m]
  }

  ghost predicate TwoOrMore(w: seq<seq<nat>>, p: seq<nat>, i: nat)
    requires RealPath(w, p) && i < |w|
  {
    exists a: nat, b: nat :: a != b && Light(w, p, i, a) && Light(w, p, i, b)
  }

  ghost predicate HalfOf(w: seq<seq<nat>>, p: seq<nat>, i: nat, c: nat)
    requires RealPath(w, p) && i < |w|
  {
    exists a: nat, b: nat :: LightestTwo(w, p, i, a, b) && 2 * c <= w[i][a] + w[i][b] <= 2 * c + 1
  }

  ghost predicate OnlyEdge(w: seq<seq<nat>>, p: seq<nat>, i: nat, c: nat)
    requires RealPath(w, p) && i < |w|
  {
    exists a: nat :: Light(w, p, i, a) && c == w[i][a]
  }

  /** Half of what its two lightest edges weigh, rounded down; the weight of the only one; or nothing. */
  ghost predicate Contributes(w: seq<seq<nat>>, p: seq<nat>, i: nat, c: nat)
    requires RealPath(w, p) && i < |w|
  {
    if TwoOrMore(w, p, i) then HalfOf(w, p, i, c)
    else if exists a: nat :: Light(w, p, i, a) then OnlyEdge(w, p, i, c)
    else c == 0
  }

  lemma TwoLight(w: seq<seq<nat>>, p: seq<nat>, i: nat, a: nat, b: nat)
    requires RealPath(w, p) && i < |w| && a != b && Light(w, p, i, a) && Light(w, p, i, b)
    ensures Cheapest(w, p, i, |w|).wt2 < BIGINT
    ensures var t := Cheapest(w, p, i, |w|); t.wt1 + t.wt2 <= w[i][a] + w[i][b]
  {
    CheapestIsLeast(w, p, i, |w|);
  }

  lemma TermContributes(w: seq<seq<nat>>, p: seq<nat>, i: nat)
    requires RealPath(w, p) && i < |w|
    ensures Contributes(w, p, i, Term(w, p, i))
  {
    var t := Cheapest(w, p, i, |w|);
    var a, b := CheapestIsReal(w, p, i, |w|);
    CheapestIsLeast(w, p, i, |w|);
    if t.wt2 != BIGINT {
      forall k: nat, m: nat | k != m && Light(w, p, i, k) && Light(w, p, i, m) ensures t.wt1 + t.wt2 <= w[i][k] + w[i][m] {
        TwoLight(w, p, i, k, m);
      }
      assert Light(w, p, i, a) && Light(w, p, i, b);
      assert LightestTwo(w, p, i, a, b);
    } else {
      forall k: nat, m: nat | Light(w, p, i, k) && Light(w, p, i, m) ensures k == m {
        if k != m { TwoLight(w, p, i, k, m); }
      }
      if t.wt1 != BIGINT { assert Light(w, p, i, a); }
    }
  }

  /** The edges fix it. */
  lemma ContributionUnique(w: seq<seq<nat>>, p: seq<nat>, i: nat, c: nat, d: nat)
    requires RealPath(w, p) && i < |w| && Contributes(w, p, i, c) && Contributes(w, p, i, d)
    ensures c == d
  {
    if TwoOrMore(w, p, i) {
      var a: nat, b: nat :| LightestTwo(w, p, i, a, b) && 2 * c <= w[i][a] + w[i][b] <= 2 * c + 1;
      var k: nat, m: nat :| LightestTwo(w, p, i, k, m) && 2 * d <= w[i][k] + w[i][m] <= 2 * d + 1;
      SameTwo(w, p, i, a, b, k, m);
    }
  }

  lemma SameTwo(w: seq<seq<nat>>, p: seq<nat>, i: nat, a: nat, b: nat, k: nat, m: nat)
    requires RealPath(w, p) && i < |w| && LightestTwo(w, p, i, a, b) && LightestTwo(w, p, i, k, m)
    ensures w[i][a] + w[i][b] == w[i][k] + w[i][m]
  {
  }

  /** Hence it is at least half of any m that no two light edges fall short of, but for rounding. */
  lemma TermAtLeast(w: seq<seq<nat>>, p: seq<nat>, i: nat, m: nat)
    requires RealPath(w, p) && i < |w| && TwoOrMore(w, p, i)
    requires forall a: nat, b: nat :: a != b && Light(w, p, i, a) && Light(w, p, i, b) ==> m <= w[i][a] + w[i][b]
    ensures m <= 2 * Term(w, p, i) + 1
  {
    TermContributes(w, p, i);
    var a: nat, b: nat :| LightestTwo(w, p, i, a, b) && w[i][a] + w[i][b] <= 2 * Term(w, p, i) + 1;
    assert Light(w, p, i, a) && Light(w, p, i, b);
  }

  function Sum(s: seq<nat>): (r: nat) { if s == [] then 0 else Sum(s[..|s| - 1]) + s[|s| - 1] }

  /** Node by node, what the unvisited ones contribute. */
  ghost predicate Contributions(w: seq<seq<nat>>, p: seq<nat>, terms: seq<nat>)
    requires RealPath(w, p)
  {
    |terms| == |w| && forall i :: 0 <= i < |w| ==> if i in p then terms[i] == 0 else Contributes(w, p, i, terms[i])
  }

  /** The bound that the graph gives for the path p. */
  ghost predicate IsBound(w: seq<seq<nat>>, p: seq<nat>, bound: int)
    requires RealPath(w, p)
  {
    exists terms :: Contributions(w, p, terms) && bound == PathWeight(w, p) + Sum(terms) + 1
  }

  function TermsOf(w: seq<seq<nat>>, p: seq<nat>): (r: seq<nat>)
    requires RealPath(w, p)
    ensures |r| == |w| && forall i :: 0 <= i < |w| ==> r[i] == if i in p then 0 else Term(w, p, i)
  {
    seq(|w|, i requires 0 <= i < |w| => if i in p then 0 else Term(w, p, i))
  }

  lemma {:induction false} TotalIsSum(w: seq<seq<nat>>, p: seq<nat>, i: nat)
    requires RealPath(w, p) && i <= |w|
    ensures Total(w, p, Unvisited(|w|, p), i) == Sum(TermsOf(w, p)[..i])
  {
    if i > 0 {
      TotalIsSum(w, p, i - 1);
      assert TermsOf(w, p)[..i][..i - 1] == TermsOf(w, p)[..i - 1];
    }
  }

  lemma TotalIsBound(w: seq<seq<nat>>, p: seq<nat>)
    requires RealPath(w, p)
    ensures IsBound(w, p, PathWeight(w, p) + Total(w, p, Unvisited(|w|, p), |w|) + 1)
  {
    var terms := TermsOf(w, p);
    TotalIsSum(w, p, |w|);
    assert terms[..|w|] == terms;
    forall i | 0 <= i < |w| ensures if i in p then terms[i] == 0 else Contributes(w, p, i, terms[i]) {
      TermContributes(w, p, i);
    }
    assert Contributions(w, p, terms);
  }

  lemma {:induction false} SumUnique(w: seq<seq<nat>>, p: seq<nat>, s: seq<nat>, t: seq<nat>)
    requires RealPath(w, p) && Contributions(w, p, s) && Contributions(w, p, t)
    ensures s == t
  {
    forall i | 0 <= i < |w| ensures s[i] == t[i] {
      if i !in p { ContributionUnique(w, p, i, s[i], t[i]); }
    }
  }

  /** And nothing else is one: the graph and the path fix the bound. */
  lemma BoundUnique(w: seq<seq<nat>>, p: seq<nat>, b: int, d: int)
    requires RealPath(w, p) && IsBound(w, p, b) && IsBound(w, p, d)
    ensures b == d
  {
    var s :| Contributions(w, p, s) && b == PathWeight(w, p) + Sum(s) + 1;
    var t :| Contributions(w, p, t) && d == PathWeight(w, p) + Sum(t) + 1;
    SumUnique(w, p, s, t);
  }

  /** The sum over the nodes of s below i. */
  function Total(w: seq<seq<nat>>, p: seq<nat>, s: set<nat>, i: nat): (r: nat)
    requires RealPath(w, p) && i <= |w|
  {
    if i == 0 then 0 else Total(w, p, s, i - 1) + if i - 1 in s then Term(w, p, i - 1) else 0
  }

  lemma {:induction false} TotalOneMore(w: seq<seq<nat>>, p: seq<nat>, s: set<nat>, v: nat, i: nat)
    requires RealPath(w, p) && i <= |w| && v !in s && v < |w|
    ensures Total(w, p, s + {v}, i) == Total(w, p, s, i) + if v < i then Term(w, p, v) else 0
  {
    if i > 0 {
      TotalOneMore(w, p, s, v, i - 1);
    }
  }

  // ---------------------------------------------------------------- the bound is admissible

  predicate Symmetric(w: seq<seq<nat>>)
    requires Square(w)
  {
    forall i, j :: 0 <= i < |w| && 0 <= j < |w| ==> w[i][j] == w[j][i]
  }

  predicate Small(w: seq<seq<nat>>)
    requires Square(w)
  {
    forall i, j :: 0 <= i < |w| && 0 <= j < |w| ==> w[i][j] < BIGINT
  }

  function Step(w: seq<seq<nat>>, c: seq<nat>, i: nat): nat
    requires Cycle(w, c) && 1 <= i < |c|
  {
    w[c[i - 1]][c[i]]
  }

  /** The edges of the cycle from position i - 1 on, back to the start. */
  function Rest(w: seq<seq<nat>>, c: seq<nat>, i: nat): (r: nat)
    requires Cycle(w, c) && 1 <= i <= |c|
    decreases |c| - i
  {
    if i == |c| then w[c[i - 1]][0] else Step(w, c, i) + Rest(w, c, i + 1)
  }

  lemma {:induction false} RestWeight(w: seq<seq<nat>>, c: seq<nat>, i: nat)
    requires Cycle(w, c) && 1 <= i <= |c|
    ensures PathWeight(w, c[..i]) + Rest(w, c, i) == CycleWeight(w, c)
    decreases |c| - i
  {
    if i == |c| {
      assert c[..i] == c;
    } else {
      RestWeight(w, c, i + 1);
      assert c[..i + 1] == c[..i] + [c[i]];
      OneMoreEdge(w, c[..i], c[i]);
    }
  }

  /** Each unvisited node's term is at most half of its two edges in the cycle; each edge between
      unvisited nodes counts twice, the first and the last only once. */
  lemma {:induction false} TermsAtMost(w: seq<seq<nat>>, p: seq<nat>, c: seq<nat>, i: nat)
    requires RealPath(w, p) && Cycle(w, c) && p < c && |c| >= |p| + 2
    requires Symmetric(w) && Small(w) && |p| <= i < |c|
    ensures 2 * Total(w, p, Members(c[i..]), |w|) + Step(w, c, i) + w[c[|c| - 1]][0] <= 2 * Rest(w, c, i)
    decreases |c| - i
  {
    var v := c[i];
    assert c[i..] == [v] + c[i + 1..];
    assert Members(c[i..]) == Members(c[i + 1..]) + {v};
    assert v !in c[i + 1..];
    TotalOneMore(w, p, Members(c[i + 1..]), v, |w|);
    TermOfCycle(w, p, c, i);
    if i + 1 < |c| {
      TermsAtMost(w, p, c, i + 1);
    } else {
      assert Members(c[i + 1..]) == {};
      EmptyTotal(w, p, |w|);
    }
  }

  lemma {:induction false} EmptyTotal(w: seq<seq<nat>>, p: seq<nat>, i: nat)
    requires RealPath(w, p) && i <= |w|
    ensures Total(w, p, {}, i) == 0
  {
    if i > 0 {
      EmptyTotal(w, p, i - 1);
    }
  }

  lemma TermOfCycle(w: seq<seq<nat>>, p: seq<nat>, c: seq<nat>, i: nat)
    requires RealPath(w, p) && Cycle(w, c) && p < c && |c| >= |p| + 2
    requires Symmetric(w) && Small(w) && |p| <= i < |c|
    ensures 2 * Term(w, p, c[i]) <= Step(w, c, i) + if i + 1 < |c| then Step(w, c, i + 1) else w[c[i]][0]
  {
    var v, a := c[i], c[i - 1];
    var b := if i + 1 < |c| then c[i + 1] else 0;
    assert forall k :: 0 <= k < |p| ==> p[k] == c[k];
    assert i > |p| ==> a !in p;
    assert i + 1 < |c| ==> b !in p;
    assert c[0] == p[0] == 0;
    TermAtMost(w, p, v, a, b);
  }

  /** The nodes not on the path. */
  function Unvisited(n: nat, p: seq<nat>): (s: set<nat>) { NodeSet(n) - Members(p) }

  /** The bound never exceeds the weight of a completion: with at least two nodes to go, symmetric
      weights and every weight below BIGINT. */
  lemma BoundAdmissible(w: seq<seq<nat>>, p: seq<nat>, c: seq<nat>)
    requires RealPath(w, p) && Cycle(w, c) && p < c && |c| >= |p| + 2 && Symmetric(w) && Small(w)
    ensures PathWeight(w, p) + Total(w, p, Unvisited(|w|, p), |w|) + 1 <= CycleWeight(w, c)
  {
    var i := |p|;
    assert Unvisited(|w|, p) == Members(c[i..]) by {
      RestIsUnvisited(w, p, c);
    }
    TermsAtMost(w, p, c, i);
    RestWeight(w, c, i);
    assert c[..i] == p;
    assert Step(w, c, i) >= 1;
  }

  lemma RestIsUnvisited(w: seq<seq<nat>>, p: seq<nat>, c: seq<nat>)
    requires RealPath(w, p) && Cycle(w, c) && p < c
    ensures Unvisited(|w|, p) == Members(c[|p|..])
  {
    AllVisited(c, |w|);
    var rest := c[|p|..];
    forall v ensures v in Unvisited(|w|, p) <==> v in Members(rest) {
      if v in Unvisited(|w|, p) {
        assert v in c;
        var k :| 0 <= k < |c| && c[k] == v;
        assert k >= |p|;
        assert rest[k - |p|] == v;
      }
      if v in rest {
        var k :| 0 <= k < |rest| && rest[k] == v;
        assert c[|p| + k] == v;
        assert forall j :: 0 <= j < |p| ==> p[j] == c[j];
      }
    }
  }

  // ---------------------------------------------------------------- calc_bound

  datatype Outcome = EndTour | Queued

  /** The inner loop of calc_bound. */
  method TwoCheapest(w: seq<seq<nat>>, curr: TourElement, i: nat, ghost p: seq<nat>) returns (wt1: nat, wt2: nat)
    requires curr.Is(w, p) && i < |w|
    ensures Two(wt1, wt2) == Cheapest(w, p, i, |w|)
  {
    wt1, wt2 := BIGINT, BIGINT;
    assert curr.prefix[..curr.last + 1][0] == curr.prefix[0] && curr.prefix[..curr.last + 1][curr.last] == curr.prefix[curr.last];
    for j := 0 to |w|
      invariant Two(wt1, wt2) == Cheapest(w, p, i, j)
    {
      var wt := w[i][j];
      if wt == 0 || (j in curr.conn && j != curr.prefix[0] && j != curr.prefix[curr.last]) {
        continue;
      }
      if wt < wt1 {
        wt1, wt2 := wt, wt1;
      } else if wt < wt2 {
        wt2 := wt;
      }
    }
  }

  /** Node i is the missing one, and p + [i] becomes the best tour if it is shorter. */
  ghost predicate Offered(w: seq<seq<nat>>, p: seq<nat>, i: nat, len: nat, tour: seq<nat>, len': nat, tour': seq<nat>)
    requires RealPath(w, p)
  {
    && i < |w| && i !in p
    && var total := PathWeight(w, p) + w[p[|p| - 1]][i] + w[i][0];
      if total < len then len' == total && tour' == p + [i] else len' == len && tour' == tour
  }

  /** The case of a single missing node: the tour is completed and offered as the best one. */
  method Complete(w: seq<seq<nat>>, curr: TourElement, best: Best, ghost p: seq<nat>) returns (i: nat)
    requires curr.Is(w, p) && |p| == |w| - 1 && best.Shape() && best.n == |w| && curr.prefix != best.minTour
    requires |w| < MAXTOURSIZE
    modifies curr, curr.prefix, best`minTourLen, best.minTour
    ensures Offered(w, p, i, old(best.minTourLen), old(best.Tour()), best.minTourLen, best.Tour())
    ensures curr.prefix[..|w|] == p + [i] && curr.prefix[|w|] == 0 && curr.lowerBound == BIGINT
    ensures curr.prefixWeight == PathWeight(w, p) + w[p[|p| - 1]][i] + w[i][0]
  {
    assert curr.prefix[..|w| - 1] == p;
    i := FirstMissing(w, curr, p);
    curr.prefix[|w| - 1] := i;
    curr.prefix[|w|] := 0;
    curr.prefixWeight := curr.prefixWeight + w[curr.prefix[|w| - 2]][i] + w[i][curr.prefix[0]];
    assert curr.prefix[..|w| - 1] == p && curr.prefix[..|w|] == p + [i];
    if curr.prefixWeight < best.minTourLen {
      best.SetBest(curr.prefixWeight, curr.prefix);
    }
    curr.lowerBound := BIGINT;
  }

  method FirstMissing(w: seq<seq<nat>>, curr: TourElement, ghost p: seq<nat>) returns (i: nat)
    requires curr.Is(w, p) && |p| == |w| - 1
    ensures i < |w| && i !in p
  {
    i := 0;
    while i < |w| && i in curr.conn
      invariant i <= |w| && forall v :: 0 <= v < i ==> v in p
    {
      i := i + 1;
    }
    if i == |w| {
      MembersSize(p);
      SubsetSize(NodeSet(|w|), Members(p));
    }
  }

  /** What that branch records is a cycle exactly when both closing edges exist; it does not check. */
  lemma CompletedIsCycle(w: seq<seq<nat>>, p: seq<nat>, i: nat)
    requires RealPath(w, p) && |p| == |w| - 1 && i < |w| && i !in p
    ensures Cycle(w, p + [i]) <==> w[p[|p| - 1]][i] != 0 && w[i][0] != 0
    ensures Cycle(w, p + [i]) ==> CycleWeight(w, p + [i]) == PathWeight(w, p) + w[p[|p| - 1]][i] + w[i][0]
  {
    var c := p + [i];
    ExtendedPath(w, p, i);
    OneMoreEdge(w, p, i);
    assert c[|c| - 1] == i;
  }

  lemma ExtendedPath(w: seq<seq<nat>>, p: seq<nat>, i: nat)
    requires RealPath(w, p) && |p| < |w| && i < |w| && i !in p
    ensures RealPath(w, p + [i]) <==> w[p[|p| - 1]][i] != 0
  {
    var c := p + [i];
    assert forall k :: 0 <= k < |p| ==> c[k] == p[k];
    assert c[|p| - 1] == p[|p| - 1] && c[|p|] == i;
  }

  /** A graph with no cycle through node 2, in which the branch records one of weight 3. */
  lemma RecordsNoCycle()
    ensures var w, p := [[0, 3, 0], [3, 0, 0], [0, 0, 0]], [0, 1];
      RealPath(w, p) && 2 !in p && PathWeight(w, p) + w[1][2] + w[2][0] == 3 && !Cycle(w, p + [2])
  {
    var w, p := [[0, 3, 0], [3, 0, 0], [0, 0, 0]], [0, 1];
    assert p[..1] == [0];
    assert (p + [2])[1] == 1 && (p + [2])[2] == 2;
  }

  lemma NextTerm(w: seq<seq<nat>>, p: seq<nat>, conn: set<nat>, i: nat)
    requires RealPath(w, p) && i < |w| && conn == Members(p)
    ensures Total(w, p, Unvisited(|w|, p), i + 1) ==
      Total(w, p, Unvisited(|w|, p), i) + if i in conn then 0 else Term(w, p, i)
  {
  }

  /** The outer loop of calc_bound. */
  method SumBound(w: seq<seq<nat>>, curr: TourElement, ghost p: seq<nat>)
    requires curr.Is(w, p)
    modifies curr`mstWeight
    ensures curr.mstWeight == Total(w, p, Unvisited(|w|, p), |w|)
  {
    curr.mstWeight := 0;
    for i := 0 to |w|
      invariant curr.mstWeight == Total(w, p, Unvisited(|w|, p), i)
    {
      NextTerm(w, p, curr.conn, i);
      if i in curr.conn {
        continue;
      }
      AddTerm(w, curr, i, p);
    }
  }

  method AddTerm(w: seq<seq<nat>>, curr: TourElement, i: nat, ghost p: seq<nat>)
    requires curr.Is(w, p) && i < |w|
    modifies curr`mstWeight
    ensures curr.mstWeight == old(curr.mstWeight) + Term(w, p, i)
  {
    var term := OneTerm(w, curr, i, p);
    curr.mstWeight := curr.mstWeight + term;
  }

  /** What an unvisited node adds. */
  method OneTerm(w: seq<seq<nat>>, curr: TourElement, i: nat, ghost p: seq<nat>) returns (term: nat)
    requires curr.Is(w, p) && i < |w|
    ensures term == Term(w, p, i)
  {
    var wt1, wt2 := TwoCheapest(w, curr, i, p);
    term := if wt2 != BIGINT then (wt1 + wt2) / 2 else if wt1 != BIGINT then wt1 else 0;
  }

  /** calc_bound. */
  method CalcBound(w: seq<seq<nat>>, curr: TourElement, best: Best, ghost p: seq<nat>) returns (r: Outcome)
    requires curr.Is(w, p) && 2 <= |w| < MAXTOURSIZE && best.Shape() && best.n == |w| && curr.prefix != best.minTour
    modifies curr, curr.prefix, best`minTourLen, best.minTour
    ensures r == if |p| == |w| - 1 then EndTour else Queued
    ensures r.Queued? ==> curr.Is(w, p) && best.minTourLen == old(best.minTourLen) && best.Tour() == old(best.Tour())
    ensures r.Queued? && |p| < |w| ==> curr.lowerBound == PathWeight(w, p) + Total(w, p, Unvisited(|w|, p), |w|) + 1
    ensures r.Queued? && |p| < |w| ==> IsBound(w, p, curr.lowerBound)
    ensures r.Queued? && |p| == |w| ==> curr.lowerBound == PathWeight(w, p)
    ensures r.EndTour? ==> curr.lowerBound == BIGINT && exists i ::
      Offered(w, p, i, old(best.minTourLen), old(best.Tour()), best.minTourLen, best.Tour())
  {
    if curr.last == |w| - 2 {
      var i := Complete(w, curr, best, p);
      return EndTour;
    }
    curr.mstWeight := 0;
    if curr.last != |w| - 1 {
      SumBound(w, curr, p);
      TotalIsBound(w, p);
      curr.mstWeight := curr.mstWeight + 1;
    }
    curr.lowerBound := curr.mstWeight + curr.prefixWeight;
    return Queued;
  }
}
